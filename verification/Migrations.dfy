/** The migration runner: a ledger row is committed dirty before its statements run and is
    cleared in the same transaction as the statements. */
module Migrations {
  import opened Collections

  datatype Source = Source(version: int, name: string, checksum: string, statements: seq<string>)

  datatype Row = Row(name: string, checksum: string, dirty: bool)

  type Ledger = map<int, Row>

  /** The committed database: the ledger, and every statement that has taken effect, in order. */
  datatype State = State(ledger: Ledger, schema: seq<string>)

  /** What the world does to one migration. A crash shows up as any of the failing fates. */
  datatype Marking = Marked | MarkRefused | MarkUnknown
  datatype Applying = Applied | RolledBack | CommitUnknown
  datatype Fate = Fate(checksPass: bool, marking: Marking, applying: Applying)

  /** The manifest as LoadSources leaves it. */
  predicate Increasing(sources: seq<Source>)
  {
    forall i, j :: 0 <= i < j < |sources| ==> sources[i].version < sources[j].version
  }

  function Statements(sources: seq<Source>): seq<string>
  {
    if sources == [] then [] else Statements(sources[..|sources| - 1]) + sources[|sources| - 1].statements
  }

  predicate RowMatches(source: Source, ledger: Ledger)
  {
    source.version in ledger && ledger[source.version].name == source.name && ledger[source.version].checksum == source.checksum
  }

  /** The ledger's rows are those of the first n sources. */
  ghost predicate PrefixOf(sources: seq<Source>, ledger: Ledger, n: nat)
  {
    && n <= |sources|
    && (forall i :: 0 <= i < n ==> RowMatches(sources[i], ledger))
    && (forall v :: v in ledger ==> exists i :: 0 <= i < n && sources[i].version == v)
  }

  /** The ledger describes the schema: rows for the first n sources, at most the last of them
      dirty, and exactly the clean rows' statements applied, once each, in order. */
  ghost predicate Describes(sources: seq<Source>, s: State, n: nat, dirty: bool)
  {
    && PrefixOf(sources, s.ledger, n) && (dirty ==> n > 0)
    && (forall i :: 0 <= i < n ==> (s.ledger[sources[i].version].dirty <==> dirty && i == n - 1))
    && s.schema == Statements(sources[..if dirty then n - 1 else n])
  }

  ghost predicate Inv(sources: seq<Source>, s: State)
  {
    exists n: nat, dirty :: Describes(sources, s, n, dirty)
  }

  ghost predicate AllClean(ledger: Ledger)
  {
    forall v :: v in ledger ==> !ledger[v].dirty
  }

  // ----- one call of Up, as a function of what the world does -----

  predicate ContainsPreflight(name: string)
  {
    var suffix := "preflight.sql";
    |name| >= |suffix| && name[|name| - |suffix|..] == suffix
  }

  datatype Outcome = Outcome(state: State, applied: seq<Source>, ok: bool)

  /** A source's row is written, dirty. */
  function MarkedState(s: State, x: Source): State
  {
    s.(ledger := s.ledger[x.version := Row(x.name, x.checksum, true)])
  }

  /** Its statements have run and the row is clean. */
  function DoneState(s: State, x: Source): State
  {
    State(s.ledger[x.version := Row(x.name, x.checksum, false)], s.schema + x.statements)
  }

  /** Applies the sources from position i on that have no row yet, stopping at the first failure. */
  function Pending(sources: seq<Source>, i: nat, s: State, fate: int -> Fate): Outcome
    requires i <= |sources|
    decreases |sources| - i
  {
    if i == |sources| then Outcome(s, [], true)
    else
      var x := sources[i];
      var f := fate(x.version);
      var marked, done := MarkedState(s, x), DoneState(s, x);
      if x.version in s.ledger then Pending(sources, i + 1, s, fate)
      else if ContainsPreflight(x.name) && !f.checksPass then Outcome(s, [], false)
      else if f.marking == MarkRefused then Outcome(s, [], false)
      else if f.marking == MarkUnknown then Outcome(marked, [], false)
      else if f.applying == RolledBack then Outcome(marked, [], false)
      else if f.applying == CommitUnknown then Outcome(done, [], false)
      else
        var rest := Pending(sources, i + 1, done, fate);
        rest.(applied := [x] + rest.applied)
  }

  // ----- the ledger always describes the schema -----

  lemma ClearVersion(sources: seq<Source>, ledger: Ledger, n: nat, i: nat)
    requires Increasing(sources) && PrefixOf(sources, ledger, n) && i < |sources|
    ensures sources[i].version in ledger <==> i < n
  {
  }

  lemma MarkDescribes(sources: seq<Source>, s: State, n: nat)
    requires Increasing(sources) && Describes(sources, s, n, false) && n < |sources|
    ensures Describes(sources, MarkedState(s, sources[n]), n + 1, true)
  {
  }

  lemma ApplyDescribes(sources: seq<Source>, s: State, n: nat)
    requires Increasing(sources) && Describes(sources, s, n, false) && n < |sources|
    ensures Describes(sources, DoneState(s, sources[n]), n + 1, false)
  {
    assert sources[..n + 1][..n] == sources[..n];
  }

  /** From a clean ledger of n rows, Up leaves a ledger that describes the schema; on success
      it has applied exactly the remaining sources. */
  lemma {:induction false} PendingKeeps(sources: seq<Source>, i: nat, n: nat, s: State, fate: int -> Fate)
    requires Increasing(sources) && i <= |sources| && Describes(sources, s, n, false) && i <= n
    ensures var r := Pending(sources, i, s, fate);
            Inv(sources, r.state) && (r.ok ==> Describes(sources, r.state, |sources|, false) && r.applied == sources[n..])
    decreases |sources| - i
  {
    hide *;
    DescribesInv(sources, s, n, false);
    if i == |sources| {
      PendingEnd(sources, s, fate);
      assert sources[n..] == [];
    } else {
      PendingStep(sources, i, s, fate);
      ClearVersion(sources, s.ledger, n, i);
      if i < n {
        PendingKeeps(sources, i + 1, n, s, fate);
      } else {
        var done := DoneState(s, sources[n]);
        MarkDescribes(sources, s, n);
        DescribesInv(sources, MarkedState(s, sources[n]), n + 1, true);
        ApplyDescribes(sources, s, n);
        DescribesInv(sources, done, n + 1, false);
        PendingKeeps(sources, i + 1, n + 1, done, fate);
        assert [sources[n]] + sources[n + 1..] == sources[n..];
      }
    }
  }

  lemma DescribesInv(sources: seq<Source>, s: State, n: nat, dirty: bool)
    requires Describes(sources, s, n, dirty)
    ensures Inv(sources, s) && PrefixOf(sources, s.ledger, n) && n <= |sources|
  {
    hide Statements;
  }

  /** One turn of the loop, exactly. */
  lemma PendingNext(sources: seq<Source>, i: nat, s: State, fate: int -> Fate)
    requires i < |sources|
    ensures var x, r := sources[i], Pending(sources, i, s, fate);
            var f, rest := fate(x.version), Pending(sources, i + 1, DoneState(s, x), fate);
            r == if x.version in s.ledger then Pending(sources, i + 1, s, fate)
                 else if (ContainsPreflight(x.name) && !f.checksPass) || f.marking == MarkRefused then Outcome(s, [], false)
                 else if f.marking == MarkUnknown || f.applying == RolledBack then Outcome(MarkedState(s, x), [], false)
                 else if f.applying == CommitUnknown then Outcome(DoneState(s, x), [], false)
                 else rest.(applied := [x] + rest.applied)
  {
    hide ContainsPreflight, MarkedState, DoneState;
  }

  lemma MarkedIs(s: State, x: Source)
    ensures MarkedState(s, x) == s.(ledger := s.ledger[x.version := Row(x.name, x.checksum, true)])
    ensures State(MarkedState(s, x).ledger[x.version := Row(x.name, x.checksum, false)], s.schema + x.statements) == DoneState(s, x)
  {
    assert MarkedState(s, x).ledger[x.version := Row(x.name, x.checksum, false)] == DoneState(s, x).ledger;
  }

  lemma PendingEnd(sources: seq<Source>, s: State, fate: int -> Fate)
    ensures Pending(sources, |sources|, s, fate) == Outcome(s, [], true)
  {
  }

  /** One turn of the loop: nothing, a dirty row, a row whose outcome stays unknown to the
      caller, or the row and the rest. */
  lemma PendingStep(sources: seq<Source>, i: nat, s: State, fate: int -> Fate)
    requires i < |sources|
    ensures sources[i].version in s.ledger ==> Pending(sources, i, s, fate) == Pending(sources, i + 1, s, fate)
    ensures sources[i].version !in s.ledger ==>
              var r, rest := Pending(sources, i, s, fate), Pending(sources, i + 1, DoneState(s, sources[i]), fate);
              || r == Outcome(s, [], false)
              || r == Outcome(MarkedState(s, sources[i]), [], false)
              || r == Outcome(DoneState(s, sources[i]), [], false)
              || r == rest.(applied := [sources[i]] + rest.applied)
  {
    hide ContainsPreflight;
  }

  /** A whole call; `accepted` says whether the ledger passed validation. */
  function Upgraded(sources: seq<Source>, s: State, fate: int -> Fate, accepted: bool): Outcome
  {
    if accepted then Pending(sources, 0, s, fate) else Outcome(s, [], false)
  }

  /** What Up asks of the ledger before it writes: known, unaltered rows of a prefix, none dirty. */
  ghost predicate Gate(sources: seq<Source>, ledger: Ledger)
  {
    (exists n: nat :: PrefixOf(sources, ledger, n)) && AllClean(ledger)
  }

  ghost function UpOutcome(sources: seq<Source>, s: State, fate: int -> Fate): Outcome
  {
    Upgraded(sources, s, fate, Gate(sources, s.ledger))
  }

  /** The identity check never stops a call of this runner's own making: Up gets past its gate
      exactly when no row is dirty. */
  lemma GateIsClean(sources: seq<Source>, s: State)
    requires Inv(sources, s)
    ensures Gate(sources, s.ledger) <==> AllClean(s.ledger)
  {
    var n: nat, dirty :| Describes(sources, s, n, dirty);
    assert PrefixOf(sources, s.ledger, n);
  }

  /** Under any sources and any fate, Up keeps the ledger describing the schema, and success
      means everything has been applied. */
  lemma UpKeeps(sources: seq<Source>, s: State, fate: int -> Fate)
    requires Increasing(sources) && Inv(sources, s)
    ensures Inv(sources, UpOutcome(sources, s, fate).state)
    ensures UpOutcome(sources, s, fate).ok ==> Describes(sources, UpOutcome(sources, s, fate).state, |sources|, false)
  {
    GateIsClean(sources, s);
    var n: nat, dirty :| Describes(sources, s, n, dirty);
    if AllClean(s.ledger) {
      assert n > 0 ==> RowMatches(sources[n - 1], s.ledger);
      assert !dirty;
      hide Describes;
      PendingKeeps(sources, 0, n, s, fate);
    }
  }

  // ----- which calls succeed, and where the others stop -----

  /** The source is a preflight: its name ends that way. */
  ghost predicate Preflight(name: string)
  {
    exists p: string :: name == p + "preflight.sql"
  }

  lemma PreflightBySuffix(name: string)
    ensures ContainsPreflight(name) <==> Preflight(name)
  {
    var n := |"preflight.sql"|;
    if ContainsPreflight(name) {
      assert name == name[..|name| - n] + "preflight.sql";
    }
    if p: string :| name == p + "preflight.sql" {
      assert name[|p|..] == "preflight.sql";
    }
  }

  /** Nothing is written for this source: its checks find violations or its row is not stored. */
  ghost predicate StopsBefore(x: Source, f: Fate)
  {
    (Preflight(x.name) && !f.checksPass) || f.marking == MarkRefused
  }

  ghost predicate Succeeds(x: Source, f: Fate)
  {
    !StopsBefore(x, f) && f.marking == Marked && f.applying == Applied
  }

  /** One turn of the loop, told by what happens to the source. */
  lemma PendingTurn(sources: seq<Source>, i: nat, s: State, fate: int -> Fate)
    requires i < |sources| && sources[i].version !in s.ledger
    ensures var x, r := sources[i], Pending(sources, i, s, fate);
            var f := fate(x.version);
            && (StopsBefore(x, f) ==> r == Outcome(s, [], false))
            && (!StopsBefore(x, f) && !Succeeds(x, f) ==>
                  r == Outcome(MarkedState(s, x), [], false) || r == Outcome(DoneState(s, x), [], false))
            && (Succeeds(x, f) ==>
                  var rest := Pending(sources, i + 1, DoneState(s, x), fate);
                  r == rest.(applied := [x] + rest.applied))
  {
    PreflightBySuffix(sources[i].name);
    hide ContainsPreflight, Preflight, MarkedState, DoneState;
  }

  /** Every source from position i on that has no row goes through. */
  ghost predicate AllSucceed(sources: seq<Source>, i: nat, fate: int -> Fate)
  {
    forall k :: i <= k < |sources| ==> Succeeds(sources[k], fate(sources[k].version))
  }

  lemma {:induction false} PendingSucceeds(sources: seq<Source>, i: nat, n: nat, s: State, fate: int -> Fate)
    requires Increasing(sources) && Describes(sources, s, n, false) && i <= n <= |sources|
    ensures Pending(sources, i, s, fate).ok <==> AllSucceed(sources, n, fate)
    decreases |sources| - i
  {
    hide *;
    DescribesInv(sources, s, n, false);
    if i == |sources| {
      PendingEnd(sources, s, fate);
      NoneLeft(sources, n, fate);
    } else {
      ClearVersion(sources, s.ledger, n, i);
      PendingStep(sources, i, s, fate);
      if i < n {
        PendingSucceeds(sources, i + 1, n, s, fate);
      } else {
        PendingTurn(sources, n, s, fate);
        FirstSucceeds(sources, n, fate);
        ApplyDescribes(sources, s, n);
        PendingSucceeds(sources, i + 1, n + 1, DoneState(s, sources[n]), fate);
        StopFails(sources[n], fate(sources[n].version));
      }
    }
  }

  lemma NoneLeft(sources: seq<Source>, n: nat, fate: int -> Fate)
    requires n >= |sources|
    ensures AllSucceed(sources, n, fate)
  {
  }

  lemma FirstSucceeds(sources: seq<Source>, n: nat, fate: int -> Fate)
    requires n < |sources|
    ensures AllSucceed(sources, n, fate) <==>
            Succeeds(sources[n], fate(sources[n].version)) && AllSucceed(sources, n + 1, fate)
  {
    hide Succeeds;
  }

  lemma StopFails(x: Source, f: Fate)
    ensures StopsBefore(x, f) ==> !Succeeds(x, f)
  {
    hide Preflight;
  }

  /** The rows of the first n sources of a clean ledger. */
  lemma CleanRows(sources: seq<Source>, s: State) returns (n: nat)
    requires Increasing(sources) && Inv(sources, s) && AllClean(s.ledger)
    ensures n <= |sources| && Describes(sources, s, n, false)
    ensures forall i :: 0 <= i < |sources| ==> (sources[i].version in s.ledger <==> i < n)
  {
    var m: nat, dirty :| Describes(sources, s, m, dirty);
    assert m > 0 ==> RowMatches(sources[m - 1], s.ledger);
    assert !dirty;
    n := m;
    forall i | 0 <= i < |sources| ensures sources[i].version in s.ledger <==> i < n {
      ClearVersion(sources, s.ledger, n, i);
    }
    hide *;
  }

  /** A call succeeds if and only if no row is dirty and every source without a row goes
      through: its preflight checks pass if it is a preflight, its row is stored and its
      statements commit. */
  lemma UpSucceedsExactly(sources: seq<Source>, s: State, fate: int -> Fate)
    requires Increasing(sources) && Inv(sources, s)
    ensures UpOutcome(sources, s, fate).ok <==>
            AllClean(s.ledger) &&
            forall i :: 0 <= i < |sources| && sources[i].version !in s.ledger ==> Succeeds(sources[i], fate(sources[i].version))
  {
    GateIsClean(sources, s);
    hide Inv, Gate, AllClean, Succeeds, Increasing;
    if AllClean(s.ledger) {
      var n := CleanRows(sources, s);
      PendingSucceeds(sources, 0, n, s, fate);
      hide Pending;
    }
  }

  /** From a clean ledger of n rows, a call that meets a failing source at i leaves rows for the
      first i sources at most, and for source i itself only if it got that far. */
  lemma {:induction false} PendingStops(sources: seq<Source>, j: nat, n: nat, s: State, fate: int -> Fate, i: nat)
    requires Increasing(sources) && Describes(sources, s, n, false) && j <= n <= i < |sources|
    requires !Succeeds(sources[i], fate(sources[i].version))
    ensures exists m: nat, dirty ::
              && Describes(sources, Pending(sources, j, s, fate).state, m, dirty)
              && m <= if StopsBefore(sources[i], fate(sources[i].version)) then i else i + 1
    decreases |sources| - j
  {
    hide *;
    DescribesInv(sources, s, n, false);
    ClearVersion(sources, s.ledger, n, j);
    PendingStep(sources, j, s, fate);
    if j < n {
      PendingStops(sources, j + 1, n, s, fate, i);
    } else {
      PendingTurn(sources, n, s, fate);
      MarkDescribes(sources, s, n);
      ApplyDescribes(sources, s, n);
      if n < i && Succeeds(sources[n], fate(sources[n].version)) {
        PendingStops(sources, j + 1, n + 1, DoneState(s, sources[n]), fate, i);
      }
    }
  }

  /** Where a call stops: at a pending source that does not go through, whatever becomes of the
      others. No later source gets a row, and if its checks fail or its row is not stored it gets
      none either and the schema holds statements of earlier sources only. */
  lemma UpStopsAt(sources: seq<Source>, s: State, fate: int -> Fate, i: nat)
    requires Increasing(sources) && Inv(sources, s) && i < |sources| && sources[i].version !in s.ledger
    requires !Succeeds(sources[i], fate(sources[i].version))
    ensures var t := UpOutcome(sources, s, fate).state;
            && !UpOutcome(sources, s, fate).ok
            && (forall k :: i < k < |sources| ==> sources[k].version !in t.ledger)
            && (StopsBefore(sources[i], fate(sources[i].version)) ==>
                  && sources[i].version !in t.ledger
                  && exists m: nat :: m <= i && t.schema == Statements(sources[..m]))
  {
    var t := UpOutcome(sources, s, fate).state;
    hide *;
    UpSucceedsExactly(sources, s, fate);
    var m, dirty := StopsWithin(sources, s, fate, i);
    DescribesInv(sources, t, m, dirty);
    forall k | 0 <= k < |sources| ensures sources[k].version in t.ledger <==> k < m {
      ClearVersion(sources, t.ledger, m, k);
    }
    SchemaOf(sources, t, m, dirty);
  }

  lemma SchemaOf(sources: seq<Source>, s: State, m: nat, dirty: bool)
    requires Describes(sources, s, m, dirty)
    ensures m <= |sources| && exists k: nat :: k <= m && s.schema == Statements(sources[..k])
  {
    hide Statements;
    assert (if dirty then m - 1 else m) <= m;
  }

  lemma StopsWithin(sources: seq<Source>, s: State, fate: int -> Fate, i: nat) returns (m: nat, dirty: bool)
    requires Increasing(sources) && Inv(sources, s) && i < |sources| && sources[i].version !in s.ledger
    requires !Succeeds(sources[i], fate(sources[i].version))
    ensures Describes(sources, UpOutcome(sources, s, fate).state, m, dirty)
    ensures m <= if StopsBefore(sources[i], fate(sources[i].version)) then i else i + 1
  {
    GateIsClean(sources, s);
    hide Gate, AllClean, Succeeds, Increasing, StopsBefore, PrefixOf;
    if AllClean(s.ledger) {
      var n := CleanRows(sources, s);
      hide Describes, Inv;
      PendingStops(sources, 0, n, s, fate, i);
      hide Pending;
      m, dirty :| Describes(sources, UpOutcome(sources, s, fate).state, m, dirty)
                  && m <= if StopsBefore(sources[i], fate(sources[i].version)) then i else i + 1;
    } else {
      m, dirty :| Describes(sources, s, m, dirty);
      hide Statements;
      assert PrefixOf(sources, s.ledger, m);
      ClearVersion(sources, s.ledger, m, i);
    }
  }

  /** Once a call has succeeded, another applies nothing and changes nothing, whatever happens. */
  lemma {:induction false} SecondUpIsIdle(sources: seq<Source>, i: nat, s: State, fate: int -> Fate)
    requires Increasing(sources) && i <= |sources| && Describes(sources, s, |sources|, false)
    ensures Pending(sources, i, s, fate) == Outcome(s, [], true)
    decreases |sources| - i
  {
    if i < |sources| {
      ClearVersion(sources, s.ledger, |sources|, i);
      SecondUpIsIdle(sources, i + 1, s, fate);
    }
  }

  /** Appending sources to the manifest keeps the ledger describing the schema. */
  lemma ManifestGrows(sources: seq<Source>, more: seq<Source>, s: State)
    requires Increasing(sources + more) && Inv(sources, s)
    ensures Inv(sources + more, s)
  {
    var n: nat, dirty :| Describes(sources, s, n, dirty);
    var m := if dirty then n - 1 else n;
    assert (sources + more)[..m] == sources[..m];
    forall v | v in s.ledger ensures exists i :: 0 <= i < n && (sources + more)[i].version == v {
      var i :| 0 <= i < n && sources[i].version == v;
      assert (sources + more)[i].version == v;
    }
    assert Describes(sources + more, s, n, dirty);
  }

  /** One deployment: the manifest it ships and what the world does to its Up call. */
  datatype Deployment = Deployment(sources: seq<Source>, fate: int -> Fate)

  /** Every manifest is valid and extends the one before it. */
  ghost predicate Grows(base: seq<Source>, ds: seq<Deployment>)
    decreases |ds|
  {
    ds == [] || (base <= ds[0].sources && Increasing(ds[0].sources) && Grows(ds[0].sources, ds[1..]))
  }

  ghost function Deployed(s: State, ds: seq<Deployment>): State
    decreases |ds|
  {
    if ds == [] then s else Deployed(UpOutcome(ds[0].sources, s, ds[0].fate).state, ds[1..])
  }

  /** Over any sequence of deployments, failures and crashes, the ledger describes the schema. */
  lemma {:induction false} LedgerAlwaysDescribes(base: seq<Source>, s: State, ds: seq<Deployment>)
    requires Increasing(base) && Inv(base, s) && Grows(base, ds)
    ensures Inv(if ds == [] then base else ds[|ds| - 1].sources, Deployed(s, ds))
    decreases |ds|
  {
    hide Inv, UpOutcome;
    if ds != [] {
      assert ds[0].sources == base + ds[0].sources[|base|..];
      ManifestGrows(base, ds[0].sources[|base|..], s);
      UpKeeps(ds[0].sources, s, ds[0].fate);
      LedgerAlwaysDescribes(ds[0].sources, UpOutcome(ds[0].sources, s, ds[0].fate).state, ds[1..]);
      if ds[1..] != [] {
        assert ds[1..][|ds[1..]| - 1] == ds[|ds| - 1];
      }
    }
  }

  /** A dirty row stops every later deployment before it writes anything. */
  lemma {:induction false} DirtyBlocks(s: State, ds: seq<Deployment>)
    requires !AllClean(s.ledger)
    ensures Deployed(s, ds) == s
    decreases |ds|
  {
    if ds != [] {
      DirtyBlocks(s, ds[1..]);
    }
  }

  // ----- the runner -----

  predicate IntLeq(a: int, b: int) { a <= b }

  lemma IntOrder()
    ensures TotalOrder(IntLeq)
  {
  }

  class Runner {
    const sources: seq<Source>
    var state: State

    constructor (sources: seq<Source>, state: State)
      requires Increasing(sources)
      ensures this.sources == sources && this.state == state
    {
      this.sources, this.state := sources, state;
    }

    /** Accepts exactly the ledgers whose rows are those of a prefix of the manifest. */
    method ValidateLedgerIdentity(ledger: Ledger) returns (ok: bool)
      requires Increasing(sources)
      ensures ok <==> exists n: nat :: PrefixOf(sources, ledger, n)
    {
      ok := RowsKnown(ledger);
      if !ok {
        return;
      }
      var missingEarlier := false;
      ghost var n := 0;
      for i := 0 to |sources|
        invariant n <= i && (missingEarlier <==> n < i)
        invariant forall j :: 0 <= j < i ==> (sources[j].version in ledger <==> j < n)
      {
        if sources[i].version !in ledger {
          missingEarlier := true;
          continue;
        }
        if missingEarlier {
          GapIsNoPrefix(sources, ledger, n, i);
          return false;
        }
        n := n + 1;
      }
      assert PrefixOf(sources, ledger, n);
    }

    /** Every ledger row is the row of a source, unaltered. */
    method RowsKnown(ledger: Ledger) returns (ok: bool)
      requires Increasing(sources)
      ensures ok ==> forall v :: v in ledger ==> exists i :: 0 <= i < |sources| && sources[i].version == v
      ensures ok ==> forall i :: 0 <= i < |sources| && sources[i].version in ledger ==> RowMatches(sources[i], ledger)
      ensures !ok ==> forall n: nat :: !PrefixOf(sources, ledger, n)
    {
      var local: map<int, Source> := map[];
      for i := 0 to |sources|
        invariant forall v :: v in local ==> exists j :: 0 <= j < i && sources[j].version == v && local[v] == sources[j]
        invariant forall j :: 0 <= j < i ==> sources[j].version in local && local[sources[j].version] == sources[j]
      {
        local := local[sources[i].version := sources[i]];
      }
      var versions := SortedVersions(ledger);
      for i := 0 to |versions|
        invariant forall k :: 0 <= k < i ==> versions[k] in local && RowMatches(local[versions[k]], ledger)
      {
        var version := versions[i];
        assert version in versions;
        if version !in local {
          return false;
        }
        if ledger[version].name != local[version].name || ledger[version].checksum != local[version].checksum {
          MismatchIsNoPrefix(sources, ledger, local[version]);
          return false;
        }
      }
      hide PrefixOf;
      ok := true;
    }

    method EnsureLedgerClean(ledger: Ledger) returns (ok: bool)
      ensures ok <==> AllClean(ledger)
    {
      var versions := SortedVersions(ledger);
      for i := 0 to |versions|
        invariant forall k :: 0 <= k < i ==> versions[k] in ledger && !ledger[versions[k]].dirty
      {
        assert versions[i] in versions;
        if ledger[versions[i]].dirty {
          return false;
        }
      }
      ok := true;
    }

    static method SortedVersions(ledger: Ledger) returns (versions: seq<int>)
      ensures forall v :: v in versions <==> v in ledger
      ensures forall i, j :: 0 <= i < j < |versions| ==> versions[i] < versions[j]
    {
      IntOrder();
      versions := SortSet(ledger.Keys, IntLeq);
    }

    /** Applies everything pending, or stops at the first failure; an unknown ledger or a dirty
        row stops it before it writes anything. */
    method Up(fate: int -> Fate) returns (applied: seq<Source>, ok: bool)
      requires Increasing(sources)
      modifies this
      ensures Outcome(state, applied, ok) == UpOutcome(sources, old(state), fate)
    {
      hide PrefixOf, AllClean, Increasing;
      applied, ok := [], false;
      var known := ValidateLedgerIdentity(state.ledger);
      if !known {
        return;
      }
      var clean := EnsureLedgerClean(state.ledger);
      if !clean {
        return;
      }
      ghost var start := state;
      for i := 0 to |sources|
        invariant Pending(sources, 0, start, fate).state == Pending(sources, i, state, fate).state
        invariant Pending(sources, 0, start, fate).ok == Pending(sources, i, state, fate).ok
        invariant Pending(sources, 0, start, fate).applied == applied + Pending(sources, i, state, fate).applied
      {
        var source := sources[i];
        PendingNext(sources, i, state, fate);
        hide Pending, MarkedState, DoneState, ContainsPreflight;
        if source.version in state.ledger {
          continue;
        }
        if ContainsPreflight(source.name) && !fate(source.version).checksPass {
          return;
        }
        if fate(source.version).marking == MarkRefused {
          return;
        }
        ghost var before := state;
        state := state.(ledger := state.ledger[source.version := Row(source.name, source.checksum, true)]);
        assert state == MarkedState(before, source) by { MarkedIs(before, source); }
        if fate(source.version).marking == MarkUnknown || fate(source.version).applying == RolledBack {
          return;
        }
        state := State(state.ledger[source.version := Row(source.name, source.checksum, false)], state.schema + source.statements);
        assert state == DoneState(before, source) by { MarkedIs(before, source); }
        if fate(source.version).applying == CommitUnknown {
          return;
        }
        ghost var rest := Pending(sources, i + 1, state, fate).applied;
        assert applied + ([source] + rest) == applied + [source] + rest;
        applied := applied + [source];
      }
      ok := true;
    }

    /** The startup gate: passes exactly when every source is recorded, unaltered and clean. */
    method RequireCurrent() returns (ok: bool)
      requires Increasing(sources)
      ensures ok <==> PrefixOf(sources, state.ledger, |sources|) && AllClean(state.ledger)
    {
      var known := ValidateLedgerIdentity(state.ledger);
      if !known {
        return false;
      }
      for i := 0 to |sources|
        invariant forall j :: 0 <= j < i ==> sources[j].version in state.ledger && !state.ledger[sources[j].version].dirty
      {
        if sources[i].version !in state.ledger || state.ledger[sources[i].version].dirty {
          assert PrefixOf(sources, state.ledger, |sources|) ==> RowMatches(sources[i], state.ledger);
          return false;
        }
      }
      CompleteIsWhole(sources, state.ledger);
      ok := true;
    }
  }

  lemma PrefixMatches(sources: seq<Source>, ledger: Ledger, n: nat, x: Source)
    requires Increasing(sources) && PrefixOf(sources, ledger, n) && x in sources && x.version in ledger
    ensures RowMatches(x, ledger)
  {
    var i :| 0 <= i < n && sources[i].version == x.version;
    var j :| 0 <= j < |sources| && sources[j] == x;
    assert i == j;
  }

  lemma MismatchIsNoPrefix(sources: seq<Source>, ledger: Ledger, x: Source)
    requires Increasing(sources) && x in sources && x.version in ledger
    ensures RowMatches(x, ledger) || forall n: nat :: !PrefixOf(sources, ledger, n)
  {
    forall n: nat ensures PrefixOf(sources, ledger, n) ==> RowMatches(x, ledger) {
      if PrefixOf(sources, ledger, n) {
        PrefixMatches(sources, ledger, n, x);
      }
    }
  }

  lemma PrefixHasNoGap(sources: seq<Source>, ledger: Ledger, n: nat, gap: nat, later: nat)
    requires Increasing(sources) && PrefixOf(sources, ledger, n) && gap < later < |sources|
    requires sources[later].version in ledger
    ensures sources[gap].version in ledger
  {
    ClearVersion(sources, ledger, n, later);
    ClearVersion(sources, ledger, n, gap);
  }

  lemma GapIsNoPrefix(sources: seq<Source>, ledger: Ledger, gap: nat, later: nat)
    requires Increasing(sources) && gap < later < |sources| && sources[later].version in ledger
    ensures sources[gap].version in ledger || forall n: nat :: !PrefixOf(sources, ledger, n)
  {
    forall n: nat ensures PrefixOf(sources, ledger, n) ==> sources[gap].version in ledger {
      if PrefixOf(sources, ledger, n) {
        PrefixHasNoGap(sources, ledger, n, gap, later);
      }
    }
  }

  /** What ledger identity comes to, row by row: every row belongs to a source, unaltered, and no
      row's source comes after one without a row. */
  ghost predicate RowsInOrder(sources: seq<Source>, ledger: Ledger)
  {
    && (forall v :: v in ledger ==> exists i :: 0 <= i < |sources| && sources[i].version == v)
    && (forall i :: 0 <= i < |sources| && sources[i].version in ledger ==>
          ledger[sources[i].version].name == sources[i].name && ledger[sources[i].version].checksum == sources[i].checksum)
    && (forall i, j :: 0 <= i < j < |sources| && sources[j].version in ledger ==> sources[i].version in ledger)
  }

  lemma PrefixInOrder(sources: seq<Source>, ledger: Ledger, n: nat)
    requires Increasing(sources) && PrefixOf(sources, ledger, n)
    ensures RowsInOrder(sources, ledger)
  {
    forall i | 0 <= i < |sources| ensures sources[i].version in ledger <==> i < n {
      ClearVersion(sources, ledger, n, i);
    }
    forall i | 0 <= i < n
      ensures ledger[sources[i].version].name == sources[i].name && ledger[sources[i].version].checksum == sources[i].checksum
    {
      assert RowMatches(sources[i], ledger);
    }
  }

  /** With rows in order, those of the first n sources are there and no others. */
  lemma {:induction false} OrderIsPrefix(sources: seq<Source>, ledger: Ledger, n: nat)
    requires RowsInOrder(sources, ledger) && n <= |sources|
    requires forall i :: 0 <= i < n ==> sources[i].version in ledger
    ensures exists m: nat :: PrefixOf(sources, ledger, m)
    decreases |sources| - n
  {
    if n < |sources| && sources[n].version in ledger {
      OrderIsPrefix(sources, ledger, n + 1);
    } else {
      forall i | 0 <= i < n ensures RowMatches(sources[i], ledger) {}
      forall v | v in ledger ensures exists i :: 0 <= i < n && sources[i].version == v {
        var i :| 0 <= i < |sources| && sources[i].version == v;
      }
      assert PrefixOf(sources, ledger, n);
    }
  }

  /** A call gets past its gate, on any ledger, if and only if the rows are in order, unaltered
      and clean; the startup gate asks in addition for a row of every source. */
  lemma GateByRow(sources: seq<Source>, ledger: Ledger)
    requires Increasing(sources)
    ensures Gate(sources, ledger) <==> RowsInOrder(sources, ledger) && forall v :: v in ledger ==> !ledger[v].dirty
    ensures PrefixOf(sources, ledger, |sources|) <==>
            RowsInOrder(sources, ledger) && forall i :: 0 <= i < |sources| ==> sources[i].version in ledger
  {
    hide *;
    GateIs(sources, ledger);
    if n: nat :| PrefixOf(sources, ledger, n) {
      PrefixInOrder(sources, ledger, n);
    }
    if RowsInOrder(sources, ledger) {
      OrderIsPrefix(sources, ledger, 0);
    }
    if PrefixOf(sources, ledger, |sources|) {
      PrefixInOrder(sources, ledger, |sources|);
      forall i | 0 <= i < |sources| ensures sources[i].version in ledger { ClearVersion(sources, ledger, |sources|, i); }
    }
    if RowsInOrder(sources, ledger) && forall i :: 0 <= i < |sources| ==> sources[i].version in ledger {
      RowsMakeWhole(sources, ledger);
    }
  }

  lemma GateIs(sources: seq<Source>, ledger: Ledger)
    ensures Gate(sources, ledger) <==> (exists n: nat :: PrefixOf(sources, ledger, n)) && forall v :: v in ledger ==> !ledger[v].dirty
  {
    hide PrefixOf;
  }

  lemma RowsMakeWhole(sources: seq<Source>, ledger: Ledger)
    requires RowsInOrder(sources, ledger) && forall i :: 0 <= i < |sources| ==> sources[i].version in ledger
    ensures PrefixOf(sources, ledger, |sources|)
  {
    forall i | 0 <= i < |sources| ensures RowMatches(sources[i], ledger) {}
    hide RowMatches;
  }

  lemma CompleteIsWhole(sources: seq<Source>, ledger: Ledger)
    requires Increasing(sources) && exists n: nat :: PrefixOf(sources, ledger, n)
    requires forall i :: 0 <= i < |sources| ==> sources[i].version in ledger && !ledger[sources[i].version].dirty
    ensures PrefixOf(sources, ledger, |sources|) && AllClean(ledger)
  {
    var n: nat :| PrefixOf(sources, ledger, n);
    if n < |sources| {
      ClearVersion(sources, ledger, n, n);
    }
  }

  /** What passing the gate means: the schema is exactly the whole manifest's. */
  lemma CurrentMeansAll(sources: seq<Source>, s: State)
    requires Increasing(sources) && Inv(sources, s) && PrefixOf(sources, s.ledger, |sources|) && AllClean(s.ledger)
    ensures s.schema == Statements(sources)
  {
    var n: nat, dirty :| Describes(sources, s, n, dirty);
    PrefixIsWhole(sources, s.ledger, n);
    if n > 0 {
      LastRowClean(sources, s.ledger, n);
    }
    assert sources[..n] == sources;
    hide Increasing, PrefixOf, AllClean, Inv, RowMatches;
  }

  lemma PrefixIsWhole(sources: seq<Source>, ledger: Ledger, n: nat)
    requires Increasing(sources) && PrefixOf(sources, ledger, n) && PrefixOf(sources, ledger, |sources|)
    ensures n == |sources|
  {
    if |sources| > 0 {
      var i := if n < |sources| then n else 0;
      ClearVersion(sources, ledger, n, i);
      ClearVersion(sources, ledger, |sources|, i);
    }
  }

  lemma LastRowClean(sources: seq<Source>, ledger: Ledger, n: nat)
    requires 0 < n && PrefixOf(sources, ledger, n) && AllClean(ledger)
    ensures sources[n - 1].version in ledger && !ledger[sources[n - 1].version].dirty
  {
    assert RowMatches(sources[n - 1], ledger);
  }
}
