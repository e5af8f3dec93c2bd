/** The bounded, process-local login limiter, and why it answers as one that forgets nothing. */
module LoginLimiter {
  import opened Collections
  import opened SlidingWindow

  datatype Window = Window(failures: seq<int>, lastSeen: int)

  type Windows = map<string, Window>
  type Histories = map<string, seq<int>>

  const SECOND := 1_000_000_000

  function FailuresOf(w: Windows, key: string): seq<int>
  {
    if key in w then w[key].failures else []
  }

  /** Every attempt recorded under a key since the key was last evicted or reset. */
  ghost function HistoryOf(h: Histories, key: string): seq<int>
  {
    if key in h then h[key] else []
  }

  function Pruned(x: Window, cutoff: int): Window
  {
    x.(failures := Prune(x.failures, cutoff))
  }

  /** One key's window after a look: pruned, and gone when nothing is left. */
  function Refreshed(w: Windows, key: string, cutoff: int): Windows
  {
    if key !in w then w
    else if Pruned(w[key], cutoff).failures == [] then w - {key}
    else w[key := Pruned(w[key], cutoff)]
  }

  function Cleaned(w: Windows, cutoff: int): Windows
  {
    map k | k in w && Pruned(w[k], cutoff).failures != [] :: Pruned(w[k], cutoff)
  }

  // ----- agreement with the whole history -----

  /** From this cutoff on, pruning the list and pruning the history give the same. */
  ghost predicate Agrees(f: seq<int>, h: seq<int>, cutoff: int)
  {
    forall c :: c >= cutoff ==> Prune(f, c) == Prune(h, c)
  }

  ghost predicate Lawful(h: seq<int>, limit: nat, width: int, clock: int)
  {
    Sorted(h) && Spaced(h, limit, width) && (h == [] || h[|h| - 1] <= clock)
  }

  ghost predicate TracksKey(w: Windows, h: Histories, limit: nat, width: int, clock: int, key: string)
  {
    Agrees(FailuresOf(w, key), HistoryOf(h, key), clock - width) && Lawful(HistoryOf(h, key), limit, width, clock)
  }

  ghost predicate Tracks(w: Windows, h: Histories, limit: nat, width: int, clock: int)
  {
    forall key :: TracksKey(w, h, limit, width, clock, key)
  }

  lemma TracksLater(w: Windows, h: Histories, limit: nat, width: int, clock: int, now: int)
    requires Tracks(w, h, limit, width, clock) && clock <= now
    ensures Tracks(w, h, limit, width, now)
  {
    forall key ensures TracksKey(w, h, limit, width, now, key) {
      assert TracksKey(w, h, limit, width, clock, key);
    }
  }

  lemma TracksNothing(limit: nat, width: int, now: int)
    ensures Tracks(map[], map[], limit, width, now)
  {
  }

  /** A pruned list agrees for as long as the cutoff it was pruned at lies behind. */
  lemma PrunedAgrees(f: seq<int>, h: seq<int>, cutoff: int)
    requires Agrees(f, h, cutoff)
    ensures Agrees(Prune(f, cutoff), h, cutoff)
  {
    forall c | c >= cutoff ensures Prune(Prune(f, cutoff), c) == Prune(h, c) {
      PruneLater(f, cutoff, c);
    }
  }

  lemma TracksRefreshed(w: Windows, h: Histories, limit: nat, width: int, now: int, key: string)
    requires Tracks(w, h, limit, width, now)
    ensures Tracks(Refreshed(w, key, now - width), h, limit, width, now)
  {
    var w' := Refreshed(w, key, now - width);
    forall k ensures TracksKey(w', h, limit, width, now, k) {
      assert TracksKey(w, h, limit, width, now, k);
      PrunedAgrees(FailuresOf(w, k), HistoryOf(h, k), now - width);
    }
  }

  lemma TracksCleaned(w: Windows, h: Histories, limit: nat, width: int, now: int)
    requires Tracks(w, h, limit, width, now)
    ensures Tracks(Cleaned(w, now - width), h, limit, width, now)
  {
    var w' := Cleaned(w, now - width);
    forall k ensures TracksKey(w', h, limit, width, now, k) {
      assert TracksKey(w, h, limit, width, now, k);
      PrunedAgrees(FailuresOf(w, k), HistoryOf(h, k), now - width);
    }
  }

  lemma TracksForgotten(w: Windows, h: Histories, limit: nat, width: int, now: int, gone: set<string>)
    requires Tracks(w, h, limit, width, now)
    ensures Tracks(w - gone, h - gone, limit, width, now)
  {
    var w', h' := w - gone, h - gone;
    forall k ensures TracksKey(w', h', limit, width, now, k) {
      assert TracksKey(w, h, limit, width, now, k);
    }
  }

  lemma AppendAgrees(f: seq<int>, h: seq<int>, cutoff: int, x: int)
    requires Agrees(f, h, cutoff)
    ensures Agrees(Prune(f, cutoff) + [x], h + [x], cutoff)
  {
    forall c | c >= cutoff ensures Prune(Prune(f, cutoff) + [x], c) == Prune(h + [x], c) {
      PruneLater(f, cutoff, c);
      PruneAppend(Prune(f, cutoff), x, c);
      PruneAppend(h, x, c);
    }
  }

  lemma TracksRecorded(w: Windows, h: Histories, limit: nat, width: int, now: int, key: string)
    requires Tracks(w, h, limit, width, now) && limit >= 1
    requires |Prune(FailuresOf(w, key), now - width)| < limit
    ensures Tracks(w[key := Window(Prune(FailuresOf(w, key), now - width) + [now], now)],
          h[key := HistoryOf(h, key) + [now]], limit, width, now)
  {
    var w' := w[key := Window(Prune(FailuresOf(w, key), now - width) + [now], now)];
    var h' := h[key := HistoryOf(h, key) + [now]];
    forall k ensures TracksKey(w', h', limit, width, now, k) {
      assert TracksKey(w, h, limit, width, now, k);
      if k == key {
        KeyRecorded(w, h, limit, width, now, key);
      } else {
        assert FailuresOf(w', k) == FailuresOf(w, k) && HistoryOf(h', k) == HistoryOf(h, k);
      }
      hide *;
    }
  }

  lemma KeyRecorded(w: Windows, h: Histories, limit: nat, width: int, now: int, key: string)
    requires TracksKey(w, h, limit, width, now, key) && limit >= 1
    requires |Prune(FailuresOf(w, key), now - width)| < limit
    ensures TracksKey(w[key := Window(Prune(FailuresOf(w, key), now - width) + [now], now)],
          h[key := HistoryOf(h, key) + [now]], limit, width, now, key)
  {
    var f, g := FailuresOf(w, key), HistoryOf(h, key);
    AppendAgrees(f, g, now - width, now);
    assert Admits(g, limit, width, now) by { PruneCounts(g, now - width); }
    AdmitKeepsSpaced(g, limit, width, now);
    hide Agrees, Spaced, Sorted, Prune, Admits;
  }

  /** What a table reports is decided by its history alone, and is the least wait. */
  lemma TrackedWait(w: Windows, h: Histories, limit: nat, width: int, now: int, key: string)
    requires Tracks(w, h, limit, width, now) && limit >= 1 && width > 0
    ensures var wait := WaitFrom(Prune(FailuresOf(w, key), now - width), limit, width, now);
            LeastWait(HistoryOf(h, key), limit, width, now, wait) && (wait == 0 <==> Admits(HistoryOf(h, key), limit, width, now))
  {
    assert TracksKey(w, h, limit, width, now, key);
    WaitIsLeast(HistoryOf(h, key), limit, width, now);
  }

  /** No key of a table that tracks its history had more than `limit` attempts in any window. */
  lemma TrackedBound(w: Windows, h: Histories, limit: nat, width: int, clock: int, key: string, from: int)
    requires Tracks(w, h, limit, width, clock) && limit >= 1
    ensures CountIn(HistoryOf(h, key), from, from + width) <= limit
  {
    assert TracksKey(w, h, limit, width, clock, key);
    WindowBound(HistoryOf(h, key), limit, width, from);
  }

  ghost predicate IsOldest(w: Windows, v: string)
    requires v in w
  {
    forall k :: k in w ==> w[v].lastSeen <= w[k].lastSeen
  }

  /** Keys that a record evicts: the one seen longest ago, when a new key finds the table full. */
  ghost predicate Evicts(w: Windows, capacity: nat, key: string, gone: set<string>)
  {
    if key in w || |w| < capacity then gone == {}
    else exists v :: v in w && gone == {v} && IsOldest(w, v)
  }

  lemma OthersLeave(w: Windows, h: Histories, gone: set<string>, key: string)
    requires key !in gone
    ensures FailuresOf(w - gone, key) == FailuresOf(w, key) && HistoryOf(h - gone, key) == HistoryOf(h, key)
  {
  }

  class WindowTable {
    const limit: nat
    const width: int
    const capacity: nat
    var windows: Windows
    ghost var history: Histories

    constructor (limit: int, width: int, capacity: int)
      ensures this.limit == (if limit < 1 then 1 else limit)
      ensures this.capacity == (if capacity < 1 then 1 else capacity)
      ensures this.width == (if width <= 0 then 60_000_000_000 else width)
      ensures windows == map[] && history == map[] && Valid()
    {
      this.limit := if limit < 1 then 1 else limit;
      this.width := if width <= 0 then 60 * SECOND else width;
      this.capacity := if capacity < 1 then 1 else capacity;
      windows, history := map[], map[];
    }

    /** Never more keys than the capacity, never more times under a key than the limit. */
    ghost predicate Valid()
      reads this
    {
      && limit >= 1 && width > 0 && capacity >= 1
      && "" !in windows && |windows| <= capacity
      && forall k :: k in windows ==> 0 < |windows[k].failures| <= limit
    }

    ghost predicate Full()
      reads this
    {
      |windows| == capacity
    }

    /** Fewer than `limit` of the listed attempts are inside the window. */
    ghost predicate HasRoom(key: string, now: int)
      reads this
    {
      |Prune(FailuresOf(windows, key), now - width)| < limit
    }

    static method PruneFailures(f: seq<int>, cutoff: int) returns (r: seq<int>)
      ensures r == Prune(f, cutoff)
    {
      var firstCurrent := 0;
      while firstCurrent < |f| && f[firstCurrent] <= cutoff
        invariant firstCurrent <= |f| && Prune(f[firstCurrent..], cutoff) == Prune(f, cutoff)
      {
        assert f[firstCurrent..][1..] == f[firstCurrent + 1..];
        firstCurrent := firstCurrent + 1;
      }
      r := f[firstCurrent..];
    }

    /** Prunes one window in place and deletes it when nothing is left. */
    method PruneKey(key: string, cutoff: int)
      requires Valid() && key in windows
      modifies `windows
      ensures Valid() && windows == Refreshed(old(windows), key, cutoff)
    {
      var failures := PruneFailures(windows[key].failures, cutoff);
      Shrinks(windows, {key});
      Grows(windows, key, windows[key].(failures := failures));
      hide Prune;
      if |failures| == 0 {
        windows := windows - {key};
      } else {
        windows := windows[key := windows[key].(failures := failures)];
      }
    }

    /** How long the key must wait; its window is pruned on the way. */
    method RetryAfter(key: string, now: int) returns (wait: int)
      requires Valid()
      modifies `windows
      ensures Valid() && windows == Refreshed(old(windows), key, now - width)
      ensures wait == WaitFrom(Prune(FailuresOf(old(windows), key), now - width), limit, width, now)
    {
      hide Prune;
      if key !in windows {
        assert Prune([], now - width) == [] by { PruneSuffix([], now - width); }
        return 0;
      }
      PruneKey(key, now - width);
      if key !in windows {
        return 0;
      }
      if |windows[key].failures| < limit {
        return 0;
      }
      wait := windows[key].failures[0] + width - now;
      wait := if wait <= 0 then SECOND else wait;
    }

    /** Records an attempt, evicting the oldest key first when a new key finds the table full. */
    method RecordFailure(key: string, now: int) returns (ghost gone: set<string>)
      requires Valid() && key != ""
      modifies this
      ensures Valid() && Evicts(old(windows), capacity, key, gone)
      ensures var p := Prune(FailuresOf(old(windows), key), now - width);
              windows == (old(windows) - gone)[key := Window(if |p| < limit then p + [now] else p, now)] &&
              history == if |p| < limit then (old(history) - gone)[key := HistoryOf(old(history), key) + [now]]
                         else old(history) - gone
    {
      gone := MakeRoom(key);
      OthersLeave(old(windows), old(history), gone, key);
      hide *;
      Append(key, now);
    }

    /** Records an attempt in a table that has room for the key. */
    method Append(key: string, now: int)
      requires Valid() && key != "" && (key in windows || |windows| < capacity)
      modifies this
      ensures Valid()
      ensures var p := Prune(FailuresOf(old(windows), key), now - width);
              windows == old(windows)[key := Window(if |p| < limit then p + [now] else p, now)] &&
              history == if |p| < limit then old(history)[key := HistoryOf(old(history), key) + [now]] else old(history)
    {
      FewFailures(key, now - width);
      hide FailuresOf, HistoryOf, Prune;
      var failures := PruneFailures(FailuresOf(windows, key), now - width);
      if |failures| < limit {
        failures := failures + [now];
        history := history[key := HistoryOf(history, key) + [now]];
      }
      Write(key, failures, now);
    }

    lemma FewFailures(key: string, cutoff: int)
      requires Valid()
      ensures limit >= 1 && |Prune(FailuresOf(windows, key), cutoff)| <= limit
    {
      PruneSuffix(FailuresOf(windows, key), cutoff);
    }

    /** Puts a key's window into a table that has room for it. */
    method Write(key: string, failures: seq<int>, now: int)
      requires Valid() && key != "" && 0 < |failures| <= limit && (key in windows || |windows| < capacity)
      modifies `windows
      ensures Valid() && windows == old(windows)[key := Window(failures, now)]
    {
      Grows(windows, key, Window(failures, now));
      windows := windows[key := Window(failures, now)];
    }

    /** A key that is not in a full table gets the place of the key seen longest ago. */
    method MakeRoom(key: string) returns (ghost gone: set<string>)
      requires Valid()
      modifies this
      ensures Valid() && Evicts(old(windows), capacity, key, gone) && key !in gone
      ensures windows == old(windows) - gone && history == old(history) - gone
      ensures key in windows || |windows| < capacity
    {
      gone := {};
      assert windows - gone == windows && history - gone == history;
      if key !in windows && |windows| >= capacity {
        gone := EvictOldest();
      }
    }

    /** Deletes the key seen longest ago. The scan marks "none yet" by the empty key, so it
        relies on no window having that key. */
    method EvictOldest() returns (ghost gone: set<string>)
      requires "" !in windows
      modifies this
      ensures old(windows) == map[] ==> gone == {}
      ensures old(windows) != map[] ==> |windows| == |old(windows)| - 1
      ensures old(windows) != map[] ==> exists v :: v in old(windows) && gone == {v} && IsOldest(old(windows), v)
      ensures windows == old(windows) - gone && history == old(history) - gone
    {
      var oldestKey, oldest := "", 0;
      var rest := windows.Keys;
      while rest != {}
        invariant rest <= windows.Keys && windows == old(windows) && history == old(history)
        invariant oldestKey == "" ==> rest == windows.Keys
        invariant oldestKey != "" ==> oldestKey in windows && oldest == windows[oldestKey].lastSeen
        invariant oldestKey != "" ==> forall k :: k in windows && k !in rest ==> oldest <= windows[k].lastSeen
        decreases rest
      {
        var key :| key in rest;
        rest := rest - {key};
        if oldestKey == "" || windows[key].lastSeen < oldest {
          oldestKey, oldest := key, windows[key].lastSeen;
        }
      }
      if oldestKey == "" {
        gone := {};
        assert windows - gone == windows && history - gone == history;
        return;
      }
      gone := {oldestKey};
      Shrinks(windows, gone);
      windows := windows - {oldestKey};
      history := history - {oldestKey};
    }

    /** Prunes every window and drops the empty ones. */
    method Cleanup(cutoff: int)
      requires Valid()
      modifies `windows
      ensures Valid() && windows == Cleaned(old(windows), cutoff)
    {
      var rest := windows.Keys;
      while rest != {}
        invariant Valid()
        invariant CleanedSoFar(old(windows), rest, cutoff, windows)
        decreases rest
      {
        var key :| key in rest;
        rest := rest - {key};
        CleanNext(old(windows), rest, cutoff, windows, key);
        hide CleanedSoFar, Refreshed;
        PruneKey(key, cutoff);
      }
      assert windows == Cleaned(old(windows), cutoff);
    }
  }

  /** Cleaning has come through all keys but those of rest. */
  ghost predicate CleanedSoFar(all: Windows, rest: set<string>, cutoff: int, w: Windows)
  {
    && rest <= all.Keys && w.Keys <= all.Keys
    && (forall k :: k in rest ==> k in w && w[k] == all[k])
    && (forall k :: k in all && k !in rest ==> (k in w <==> Pruned(all[k], cutoff).failures != []))
    && (forall k :: k in w && k !in rest ==> w[k] == Pruned(all[k], cutoff))
  }

  lemma CleanNext(all: Windows, rest: set<string>, cutoff: int, w: Windows, key: string)
    requires key !in rest && CleanedSoFar(all, rest + {key}, cutoff, w)
    ensures key in w
    ensures CleanedSoFar(all, rest, cutoff, Refreshed(w, key, cutoff))
  {
  }

  lemma Grows(w: Windows, key: string, x: Window)
    ensures |w[key := x]| == |w| + if key in w then 0 else 1
  {
    assert w[key := x].Keys == w.Keys + {key};
    assert |w| == |w.Keys| && |w[key := x]| == |w[key := x].Keys|;
  }

  lemma Shrinks(w: Windows, gone: set<string>)
    ensures |w - gone| <= |w|
    ensures forall k :: k in w && gone == {k} ==> |w - gone| == |w| - 1
  {
    assert (w - gone).Keys == w.Keys - gone;
    SubsetSize(w.Keys - gone, w.Keys);
    if k :| k in w && gone == {k} {
      assert w.Keys == (w.Keys - gone) + {k};
    }
  }

  /** A table never reports a negative wait, and reports none exactly when the key has room. */
  lemma WaitSign(w: Windows, key: string, limit: nat, width: int, now: int)
    requires limit >= 1
    ensures var wait := WaitFrom(Prune(FailuresOf(w, key), now - width), limit, width, now);
            wait >= 0 && (wait == 0 <==> |Prune(FailuresOf(w, key), now - width)| < limit)
    ensures Prune(FailuresOf(Refreshed(w, key, now - width), key), now - width) == Prune(FailuresOf(w, key), now - width)
  {
    PruneLater(FailuresOf(w, key), now - width, now - width);
  }

  ghost predicate BothAdmit(h: seq<int>, limit: nat, width: int, g: seq<int>, limit': nat, width': int, now: int)
  {
    Admits(h, limit, width, now) && Admits(g, limit', width', now)
  }

  /** `wait` is the least after which both histories admit. */
  ghost predicate Both(h: seq<int>, limit: nat, width: int, g: seq<int>, limit': nat, width': int, now: int, wait: int)
  {
    && wait >= 0 && BothAdmit(h, limit, width, g, limit', width', now + wait)
    && forall t :: now <= t < now + wait ==> !BothAdmit(h, limit, width, g, limit', width', t)
  }

  lemma BothFrom(h: seq<int>, limit: nat, width: int, g: seq<int>, limit': nat, width': int, now: int, a: int, b: int)
    requires Sorted(h) && Sorted(g) && LeastWait(h, limit, width, now, a) && LeastWait(g, limit', width', now, b)
    ensures Both(h, limit, width, g, limit', width', now, Max(a, b))
  {
    LargerWaitIsLeast(h, g, limit, width, limit', width', now, a, b);
    hide Admits, Sorted;
  }

  lemma SortedHistory(w: Windows, h: Histories, limit: nat, width: int, clock: int, key: string)
    requires Tracks(w, h, limit, width, clock)
    ensures Sorted(HistoryOf(h, key))
  {
    assert TracksKey(w, h, limit, width, clock, key);
  }

  /** Only a full table evicts, and it is full again afterwards. */
  lemma EvictionFills(w: Windows, capacity: nat, key: string, gone: set<string>, x: Window)
    requires Evicts(w, capacity, key, gone) && |w| <= capacity
    ensures |gone| <= 1
    ensures gone != {} ==> |(w - gone)[key := x]| == capacity
  {
    Shrinks(w, gone);
    Grows(w - gone, key, x);
  }

  // ----- identities: a user name at a client -----

  function IdentityKey(clientKey: string, username: string): string
  {
    clientKey + "\0" + username
  }

  /** The attempts recorded for a user name from a client. */
  ghost function AttemptsOf(h: Histories, clientKey: string, username: string): seq<int>
  {
    HistoryOf(h, IdentityKey(clientKey, username))
  }

  /** Client keys without the separator never share an identity. */
  lemma {:induction false} PairsApart(c: string, u: string, d: string, v: string)
    requires '\0' !in c && '\0' !in d && IdentityKey(c, u) == IdentityKey(d, v)
    ensures c == d && u == v
  {
    var k, l := IdentityKey(c, u), IdentityKey(d, v);
    assert k[|c|] == '\0' && l[|d|] == '\0';
    assert forall i :: 0 <= i < |c| ==> k[i] == c[i];
    assert forall i :: 0 <= i < |d| ==> l[i] == d[i];
    assert |c| == |d|;
    assert c == k[..|c|] && d == l[..|d|] && u == k[|c| + 1..] && v == l[|d| + 1..];
  }

  /** One attempt has been added for this pair. No other pair's attempts have changed, but that
      in a full table one other pair's may have been evicted. */
  ghost predicate PairRecorded(h: Histories, h': Histories, clientKey: string, username: string, now: int, full: bool)
  {
    exists lost: Option<(string, string)> :: PairRecordedBut(h, h', clientKey, username, now, full, lost)
  }

  ghost predicate PairRecordedBut(h: Histories, h': Histories, clientKey: string, username: string, now: int, full: bool,
        lost: Option<(string, string)>)
  {
    && (lost.Some? ==> full && lost.value != (clientKey, username))
    && forall c, u :: '\0' !in c ==>
         AttemptsOf(h', c, u) == if c == clientKey && u == username then AttemptsOf(h, c, u) + [now]
                                 else if lost == Some((c, u)) then []
                                 else AttemptsOf(h, c, u)
  }

  lemma OnePairRecorded(h: Histories, h': Histories, clientKey: string, username: string, now: int, full: bool)
    requires Recorded(h, h', IdentityKey(clientKey, username), now, full) && '\0' !in clientKey
    ensures PairRecorded(h, h', clientKey, username, now, full)
  {
    var key := IdentityKey(clientKey, username);
    var gone: set<string> :| RecordedWith(h, h', key, now, full, gone);
    var lost := None;
    if c, u :| '\0' !in c && IdentityKey(c, u) in gone {
      lost := Some((c, u));
      OnlyOne(gone, IdentityKey(c, u));
    }
    forall c, u | '\0' !in c
      ensures AttemptsOf(h', c, u) == if c == clientKey && u == username then AttemptsOf(h, c, u) + [now]
                                      else if lost == Some((c, u)) then [] else AttemptsOf(h, c, u)
    {
      if IdentityKey(c, u) == key {
        PairsApart(c, u, clientKey, username);
      }
      if lost.Some? && IdentityKey(c, u) == IdentityKey(lost.value.0, lost.value.1) {
        PairsApart(c, u, lost.value.0, lost.value.1);
      }
      hide IdentityKey;
    }
    assert PairRecordedBut(h, h', clientKey, username, now, full, lost);
  }

  lemma OnlyOne<T>(x: set<T>, e: T)
    requires |x| <= 1 && e in x
    ensures x == {e}
  {
    SubsetSize({e}, x);
    assert x == (x - {e}) + {e};
  }

  /** This pair's attempts are forgotten and no other's. */
  ghost predicate PairForgotten(h: Histories, h': Histories, clientKey: string, username: string)
  {
    forall c, u :: '\0' !in c ==> AttemptsOf(h', c, u) == if c == clientKey && u == username then [] else AttemptsOf(h, c, u)
  }

  lemma OnePairForgotten(h: Histories, clientKey: string, username: string)
    ensures '\0' !in clientKey ==> PairForgotten(h, h - {IdentityKey(clientKey, username)}, clientKey, username)
  {
    if '\0' !in clientKey {
      var h' := h - {IdentityKey(clientKey, username)};
      forall c, u | '\0' !in c
        ensures AttemptsOf(h', c, u) == if c == clientKey && u == username then [] else AttemptsOf(h, c, u)
      {
        if IdentityKey(c, u) == IdentityKey(clientKey, username) {
          PairsApart(c, u, clientKey, username);
        }
        hide IdentityKey;
      }
    }
  }

  class LoginAttemptLimiter {
    const clients: WindowTable
    const identities: WindowTable
    const interval: int
    var lastCleanup: Option<int>
    ghost var clock: Option<int>
    ghost var steady: bool

    constructor (clientLimit: int, clientWindow: int, identityLimit: int, identityWindow: int, maxEntries: int, interval: int)
      ensures Valid() && fresh(clients) && fresh(identities) && steady && clock == None
      ensures clients.limit == (if clientLimit < 1 then 1 else clientLimit)
      ensures clients.width == (if clientWindow <= 0 then 60_000_000_000 else clientWindow)
      ensures identities.limit == (if identityLimit < 1 then 1 else identityLimit)
      ensures identities.width == (if identityWindow <= 0 then 60_000_000_000 else identityWindow)
      ensures clients.capacity == identities.capacity == if maxEntries < 1 then 1 else maxEntries
      ensures this.interval == if interval <= 0 then 60_000_000_000 else interval
    {
      clients := new WindowTable(clientLimit, clientWindow, maxEntries);
      identities := new WindowTable(identityLimit, identityWindow, maxEntries);
      this.interval := if interval <= 0 then 60 * SECOND else interval;
      lastCleanup, clock, steady := None, None, true;
    }

    /** Both tables within bounds; while the clock has never gone back, both agree with their histories. */
    ghost predicate Valid()
      reads this, clients, identities
    {
      && clients != identities && clients.Valid() && identities.Valid()
      && (steady ==> Tracked(clients, clock) && Tracked(identities, clock))
    }

    static ghost predicate Tracked(t: WindowTable, clock: Option<int>)
      reads t
    {
      if clock.None? then t.windows == map[] && t.history == map[]
      else Tracks(t.windows, t.history, t.limit, t.width, clock.value)
    }

    /** The clock has not gone back so far and does not now. */
    ghost predicate Steady(now: int)
      reads this
    {
      steady && (clock.Some? ==> clock.value <= now)
    }

    /** Drops expired attempts everywhere, at most once per interval. */
    method CleanupExpired(now: int)
      requires Valid()
      modifies this, clients, identities
      ensures Valid() && clients.history == old(clients.history) && identities.history == old(identities.history)
      ensures steady == old(Steady(now)) && clock == Some(now)
    {
      ghost var ok := Steady(now);
      if ok {
        Advance(clients, clock, now);
        Advance(identities, clock, now);
      }
      steady, clock := ok, Some(now);
      hide Tracks, WindowTable.Valid;
      if lastCleanup.Some? && now - lastCleanup.value < interval && now >= lastCleanup.value {
        return;
      }
      CleanupIn(clients, now);
      CleanupIn(identities, now);
      lastCleanup := Some(now);
    }

    static method CleanupIn(t: WindowTable, now: int)
      requires t.Valid()
      modifies t`windows
      ensures t.Valid()
      ensures (old(Tracks(t.windows, t.history, t.limit, t.width, now)) ==> Tracks(t.windows, t.history, t.limit, t.width, now))
    {
      if Tracks(t.windows, t.history, t.limit, t.width, now) {
        TracksCleaned(t.windows, t.history, t.limit, t.width, now);
      }
      hide Tracks, Cleaned;
      t.Cleanup(now - t.width);
    }

    static method RetryIn(t: WindowTable, key: string, now: int) returns (wait: int)
      requires t.Valid()
      modifies t`windows
      ensures t.Valid()
      ensures (old(Tracks(t.windows, t.history, t.limit, t.width, now)) ==> Tracks(t.windows, t.history, t.limit, t.width, now))
      ensures wait == WaitFrom(Prune(FailuresOf(old(t.windows), key), now - t.width), t.limit, t.width, now)
      ensures wait >= 0 && (wait == 0 ==> t.HasRoom(key, now))
    {
      if Tracks(t.windows, t.history, t.limit, t.width, now) {
        TracksRefreshed(t.windows, t.history, t.limit, t.width, now, key);
      }
      WaitSign(t.windows, key, t.limit, t.width, now);
      hide Tracks, Refreshed, Prune, WaitFrom;
      wait := t.RetryAfter(key, now);
    }

    static lemma Advance(t: WindowTable, clock: Option<int>, now: int)
      requires Tracked(t, clock) && (clock.Some? ==> clock.value <= now)
      ensures Tracks(t.windows, t.history, t.limit, t.width, now)
    {
      hide Tracks;
      if clock.Some? {
        TracksLater(t.windows, t.history, t.limit, t.width, clock.value, now);
      } else {
        TracksNothing(t.limit, t.width, now);
      }
    }

    /** The longer of the two keys' waits, after cleanup and pruning. */
    method LongerWait(clientKey: string, identityKey: string, now: int) returns (wait: int)
      requires Valid()
      modifies this, clients, identities
      ensures Valid() && steady == old(Steady(now)) && clock == Some(now)
      ensures clients.history == old(clients.history) && identities.history == old(identities.history)
      ensures wait >= 0
      ensures wait == 0 ==> clients.HasRoom(clientKey, now) && identities.HasRoom(identityKey, now)
      ensures steady ==> LeastWaits(clients.history, identities.history, clientKey, identityKey, now, wait)
    {
      CleanupExpired(now);
      if steady {
        Waits(clients, identities, clientKey, identityKey, now);
      }
      hide Tracks, Both, WaitFrom, Prune, WindowTable.Valid, WindowTable.HasRoom;
      var clientRetry := RetryIn(clients, clientKey, now);
      var identityRetry := RetryIn(identities, identityKey, now);
      wait := Max(clientRetry, identityRetry);
    }

    static lemma Waits(clients: WindowTable, identities: WindowTable, clientKey: string, identityKey: string, now: int)
      requires clients.Valid() && identities.Valid()
      requires Tracks(clients.windows, clients.history, clients.limit, clients.width, now)
      requires Tracks(identities.windows, identities.history, identities.limit, identities.width, now)
      ensures var a := WaitFrom(Prune(FailuresOf(clients.windows, clientKey), now - clients.width), clients.limit,
            clients.width, now);
              var b := WaitFrom(Prune(FailuresOf(identities.windows, identityKey), now - identities.width),
                    identities.limit, identities.width, now);
              Both(HistoryOf(clients.history, clientKey), clients.limit, clients.width,
                   HistoryOf(identities.history, identityKey), identities.limit, identities.width, now, Max(a, b))
    {
      TrackedWait(clients.windows, clients.history, clients.limit, clients.width, now, clientKey);
      TrackedWait(identities.windows, identities.history, identities.limit, identities.width, now, identityKey);
      SortedHistory(clients.windows, clients.history, clients.limit, clients.width, now, clientKey);
      SortedHistory(identities.windows, identities.history, identities.limit, identities.width, now, identityKey);
      var a := WaitFrom(Prune(FailuresOf(clients.windows, clientKey), now - clients.width), clients.limit, clients.width, now);
      var b := WaitFrom(Prune(FailuresOf(identities.windows, identityKey), now - identities.width), identities.limit,
                        identities.width, now);
      hide *;
      BothFrom(HistoryOf(clients.history, clientKey), clients.limit, clients.width,
               HistoryOf(identities.history, identityKey), identities.limit, identities.width, now, a, b);
    }

    /** Reserves the attempt under both keys. */
    method Record(clientKey: string, identityKey: string, now: int)
      requires Valid() && clock == Some(now) && clientKey != "" && identityKey != ""
      requires clients.HasRoom(clientKey, now) && identities.HasRoom(identityKey, now)
      modifies clients, identities
      ensures Valid()
      ensures Recorded(old(clients.history), clients.history, clientKey, now, clients.Full())
      ensures Recorded(old(identities.history), identities.history, identityKey, now, identities.Full())
    {
      hide Tracks;
      RecordIn(clients, clientKey, now);
      RecordIn(identities, identityKey, now);
    }

    static method RecordIn(t: WindowTable, key: string, now: int)
      requires t.Valid() && key != "" && t.HasRoom(key, now)
      modifies t
      ensures t.Valid() && Recorded(old(t.history), t.history, key, now, t.Full())
      ensures old(Tracks(t.windows, t.history, t.limit, t.width, now)) ==> Tracks(t.windows, t.history, t.limit, t.width, now)
    {
      ghost var w, h := t.windows, t.history;
      ghost var gone := t.RecordFailure(key, now);
      assert key !in gone;
      EvictionFills(w, t.capacity, key, gone, t.windows[key]);
      assert RecordedWith(h, t.history, key, now, t.Full(), gone);
      assert FailuresOf(w - gone, key) == FailuresOf(w, key) && HistoryOf(h - gone, key) == HistoryOf(h, key);
      if Tracks(w, h, t.limit, t.width, now) {
        TracksForgotten(w, h, t.limit, t.width, now, gone);
        TracksRecorded(w - gone, h - gone, t.limit, t.width, now, key);
      }
      hide Tracks, Prune;
    }

    /** Checks both windows and reserves one attempt in both, or in neither. A normalised client
        key is an address or "unknown", never empty. While the clock has
        never gone back the answer is the one the whole histories give, and a refusal's wait is
        the least. */
    method BeginAttempt(clientKey: string, username: string, now: int) returns (wait: int, limited: bool)
      requires Valid() && clientKey != ""
      modifies this, clients, identities
      ensures Valid() && (limited <==> wait > 0) && steady == old(Steady(now)) && clock == Some(now)
      ensures limited ==> clients.history == old(clients.history) && identities.history == old(identities.history)
      ensures !limited ==> Recorded(old(clients.history), clients.history, clientKey, now, clients.Full())
      ensures !limited ==> Recorded(old(identities.history), identities.history, IdentityKey(clientKey, username), now,
                                    identities.Full())
      ensures !limited && '\0' !in clientKey ==>
                PairRecorded(old(identities.history), identities.history, clientKey, username, now, identities.Full())
      ensures old(Steady(now)) ==> (limited <==>
                Crowded(HistoryOf(old(clients.history), clientKey), clients, now) ||
                Crowded(AttemptsOf(old(identities.history), clientKey, username), identities, now))
      ensures old(Steady(now)) ==> LeastWaits(old(clients.history), old(identities.history), clientKey,
            IdentityKey(clientKey, username), now, wait)
    {
      hide Tracks, BothAdmit;
      var identityKey := IdentityKey(clientKey, username);
      wait := LongerWait(clientKey, identityKey, now);
      if steady {
        WaitMeansCrowded(clients.history, identities.history, clientKey, username, now, wait);
      }
      hide Crowded, LeastWaits;
      if wait > 0 {
        return wait, true;
      }
      limited := false;
      ghost var before := identities.history;
      Record(clientKey, identityKey, now);
      if '\0' !in clientKey {
        OnePairRecorded(before, identities.history, clientKey, username, now, identities.Full());
      }
    }

    /** Answers without reserving anything. */
    method RetryAfter(clientKey: string, username: string, now: int) returns (wait: int, limited: bool)
      requires Valid() && clientKey != ""
      modifies this, clients, identities
      ensures Valid() && (limited <==> wait > 0) && steady == old(Steady(now)) && clock == Some(now)
      ensures clients.history == old(clients.history) && identities.history == old(identities.history)
      ensures old(Steady(now)) ==> (limited <==>
                Crowded(HistoryOf(old(clients.history), clientKey), clients, now) ||
                Crowded(AttemptsOf(old(identities.history), clientKey, username), identities, now))
      ensures old(Steady(now)) ==> LeastWaits(old(clients.history), old(identities.history), clientKey,
            IdentityKey(clientKey, username), now, wait)
    {
      hide Tracks, BothAdmit;
      wait := LongerWait(clientKey, IdentityKey(clientKey, username), now);
      if steady {
        WaitMeansCrowded(clients.history, identities.history, clientKey, username, now, wait);
      }
      hide Crowded, LeastWaits;
      limited := wait > 0;
    }

    /** A successful login clears that identity's window and nothing else. */
    method Reset(clientKey: string, username: string)
      requires Valid()
      modifies identities
      ensures Valid() && clients.history == old(clients.history) && clients.windows == old(clients.windows)
      ensures identities.history == old(identities.history) - {IdentityKey(clientKey, username)}
      ensures identities.windows == old(identities.windows) - {IdentityKey(clientKey, username)}
      ensures '\0' !in clientKey ==> PairForgotten(old(identities.history), identities.history, clientKey, username)
    {
      OnePairForgotten(identities.history, clientKey, username);
      hide Tracks, WindowTable.Valid, PairForgotten;
      ForgetIn(identities, IdentityKey(clientKey, username), clock);
    }

    static method ForgetIn(t: WindowTable, key: string, ghost clock: Option<int>)
      requires t.Valid()
      modifies t
      ensures t.Valid() && (old(Tracked(t, clock)) ==> Tracked(t, clock))
      ensures t.windows == old(t.windows) - {key} && t.history == old(t.history) - {key}
    {
      if clock.Some? && Tracked(t, clock) {
        TracksForgotten(t.windows, t.history, t.limit, t.width, clock.value, {key});
      }
      hide Tracks;
      Shrinks(t.windows, {key});
      t.windows := t.windows - {key};
      t.history := t.history - {key};
    }

    lemma WaitMeansCrowded(c: Histories, i: Histories, clientKey: string, username: string, now: int, wait: int)
      requires LeastWaits(c, i, clientKey, IdentityKey(clientKey, username), now, wait)
      ensures wait > 0 <==>
              Crowded(HistoryOf(c, clientKey), clients, now) || Crowded(AttemptsOf(i, clientKey, username), identities, now)
    {
      hide CountAfter;
      assert BothAdmit(HistoryOf(c, clientKey), clients.limit, clients.width, AttemptsOf(i, clientKey, username),
                       identities.limit, identities.width, now + wait);
      if wait > 0 {
        assert !BothAdmit(HistoryOf(c, clientKey), clients.limit, clients.width, AttemptsOf(i, clientKey, username),
                          identities.limit, identities.width, now);
      }
    }

    /** As many attempts as the limit lie inside the table's window at this time. */
    static ghost predicate Crowded(h: seq<int>, t: WindowTable, now: int)
    {
      CountAfter(h, now - t.width) >= t.limit
    }

    /** With no other attempts, one after `wait` is admitted and every earlier one is refused. */
    ghost predicate LeastWaits(c: Histories, i: Histories, clientKey: string, identityKey: string, now: int, wait: int)
    {
      Both(HistoryOf(c, clientKey), clients.limit, clients.width, HistoryOf(i, identityKey), identities.limit,
            identities.width, now, wait)
    }
  }

  /** While the clock has never gone back, no client and no identity is admitted more often than
      its limit in any half-open interval of its window's length, evictions and resets aside. */
  lemma AdmittedPerWindow(l: LoginAttemptLimiter, key: string, from: int)
    requires l.Valid() && l.steady
    ensures CountIn(HistoryOf(l.clients.history, key), from, from + l.clients.width) <= l.clients.limit
    ensures CountIn(HistoryOf(l.identities.history, key), from, from + l.identities.width) <= l.identities.limit
  {
    if l.clock.Some? {
      hide Tracks;
      TrackedBound(l.clients.windows, l.clients.history, l.clients.limit, l.clients.width, l.clock.value, key, from);
      TrackedBound(l.identities.windows, l.identities.history, l.identities.limit, l.identities.width, l.clock.value, key, from);
    }
  }

  /** One attempt has been added under key. At most one other key has lost its history, evicted
      for lack of room. */
  ghost predicate Recorded(h: Histories, h': Histories, key: string, now: int, full: bool)
  {
    exists gone: set<string> :: RecordedWith(h, h', key, now, full, gone)
  }

  ghost predicate RecordedWith(h: Histories, h': Histories, key: string, now: int, full: bool, gone: set<string>)
  {
    && |gone| <= 1 && key !in gone && (gone != {} ==> full)
    && h' == (h - gone)[key := HistoryOf(h, key) + [now]]
  }
}
