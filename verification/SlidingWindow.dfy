/** The limiter that keeps every attempt: what a bounded one has to agree with. Times are
    nanoseconds on one clock. */
module SlidingWindow {

  /** Attempts are recorded in time order. */
  predicate Sorted(h: seq<int>)
  {
    forall i, j :: 0 <= i < j < |h| ==> h[i] <= h[j]
  }

  /** How many attempts came after the cutoff. */
  function CountAfter(h: seq<int>, cutoff: int): nat
  {
    if h == [] then 0 else CountAfter(h[..|h| - 1], cutoff) + if h[|h| - 1] > cutoff then 1 else 0
  }

  /** How many attempts fall in [from, to). */
  function CountIn(h: seq<int>, from: int, to: int): nat
  {
    if h == [] then 0 else CountIn(h[..|h| - 1], from, to) + if from <= h[|h| - 1] < to then 1 else 0
  }

  /** The whole-history limiter: an attempt is admitted while fewer than `limit` earlier ones
      are younger than the window. */
  predicate Admits(h: seq<int>, limit: nat, width: int, now: int)
  {
    CountAfter(h, now - width) < limit
  }

  /** Drops the leading attempts that are not after the cutoff. */
  function Prune(f: seq<int>, cutoff: int): (r: seq<int>)
    ensures |r| <= |f|
    ensures r != [] ==> r[0] > cutoff
  {
    if f == [] || f[0] > cutoff then f else Prune(f[1..], cutoff)
  }

  /** What a table answers from a pruned list. */
  function WaitFrom(pruned: seq<int>, limit: nat, width: int, now: int): int
    requires limit >= 1
  {
    if |pruned| < limit then 0 else pruned[0] + width - now
  }

  /** An attempt after `wait` is admitted and none before, all else quiet. */
  ghost predicate LeastWait(h: seq<int>, limit: nat, width: int, now: int, wait: int)
  {
    && wait >= 0
    && Admits(h, limit, width, now + wait)
    && forall t :: now <= t < now + wait ==> !Admits(h, limit, width, t)
  }

  // ----- pruning -----

  /** Pruning drops a prefix that lies at or before the cutoff. */
  lemma {:induction false} PruneSuffix(f: seq<int>, cutoff: int)
    ensures f == f[..|f| - |Prune(f, cutoff)|] + Prune(f, cutoff)
    ensures forall i :: 0 <= i < |f| - |Prune(f, cutoff)| ==> f[i] <= cutoff
  {
    if f == [] || f[0] > cutoff {
    } else {
      PruneSuffix(f[1..], cutoff);
      var n := |f| - |Prune(f, cutoff)|;
      assert f[..n] == [f[0]] + f[1..][..n - 1];
    }
  }

  lemma {:induction false} PruneLater(f: seq<int>, a: int, b: int)
    requires a <= b
    ensures Prune(Prune(f, a), b) == Prune(f, b)
  {
    if f != [] && f[0] <= a {
      PruneLater(f[1..], a, b);
    }
  }

  lemma {:induction false} PruneAppend(f: seq<int>, x: int, c: int)
    ensures Prune(f + [x], c) == if Prune(f, c) != [] || x > c then Prune(f, c) + [x] else []
  {
    if f == [] {
      assert f + [x] == [x] && [x][1..] == [];
    } else if f[0] <= c {
      assert (f + [x])[1..] == f[1..] + [x];
      PruneAppend(f[1..], x, c);
    }
  }

  lemma {:induction false} CountSplit(f: seq<int>, g: seq<int>, cutoff: int)
    ensures CountAfter(f + g, cutoff) == CountAfter(f, cutoff) + CountAfter(g, cutoff)
  {
    if g == [] {
      assert f + g == f;
    } else {
      assert (f + g)[..|f + g| - 1] == f + g[..|g| - 1];
      CountSplit(f, g[..|g| - 1], cutoff);
    }
  }

  lemma {:induction false} CountNone(f: seq<int>, cutoff: int)
    requires forall i :: 0 <= i < |f| ==> f[i] <= cutoff
    ensures CountAfter(f, cutoff) == 0
  {
    if f != [] {
      CountNone(f[..|f| - 1], cutoff);
    }
  }

  lemma {:induction false} CountAll(f: seq<int>, cutoff: int)
    requires forall i :: 0 <= i < |f| ==> f[i] > cutoff
    ensures CountAfter(f, cutoff) == |f|
  {
    if f != [] {
      CountAll(f[..|f| - 1], cutoff);
    }
  }

  /** Pruning a time-ordered history leaves exactly the attempts after the cutoff. */
  lemma {:induction false} PruneCounts(h: seq<int>, cutoff: int)
    requires Sorted(h)
    ensures |Prune(h, cutoff)| == CountAfter(h, cutoff)
  {
    if h == [] || h[0] > cutoff {
      CountAll(h, cutoff);
    } else {
      PruneCounts(h[1..], cutoff);
      CountNone([h[0]], cutoff);
      CountSplit([h[0]], h[1..], cutoff);
      assert [h[0]] + h[1..] == h;
    }
  }

  // ----- the bound -----

  /** Any limit + 1 consecutive attempts span at least one window. */
  predicate Spaced(h: seq<int>, limit: nat, width: int)
  {
    forall i :: 0 <= i < |h| ==> Gap(h, limit, width, i)
  }

  predicate Gap(h: seq<int>, limit: nat, width: int, i: nat)
  {
    i + limit < |h| ==> h[i] + width <= h[i + limit]
  }

  /** An admitted attempt keeps the history spaced. */
  lemma AdmitKeepsSpaced(h: seq<int>, limit: nat, width: int, now: int)
    requires Sorted(h) && Spaced(h, limit, width) && limit >= 1 && (h == [] || h[|h| - 1] <= now)
    requires Admits(h, limit, width, now)
    ensures Sorted(h + [now]) && Spaced(h + [now], limit, width)
  {
    PruneCounts(h, now - width);
    PruneSuffix(h, now - width);
    hide Prune, CountAfter, Spaced, Sorted;
    SortedAppend(h, now);
    SpacedAppend(h, limit, width, now, |h| - |Prune(h, now - width)|);
  }

  lemma SortedAppend(h: seq<int>, now: int)
    requires Sorted(h) && (h == [] || h[|h| - 1] <= now)
    ensures Sorted(h + [now])
  {
  }

  lemma SpacedAppend(h: seq<int>, limit: nat, width: int, now: int, n: nat)
    requires Spaced(h, limit, width) && limit >= 1 && |h| - limit + 1 <= n <= |h|
    requires forall i :: 0 <= i < n ==> h[i] <= now - width
    ensures Spaced(h + [now], limit, width)
  {
    var g := h + [now];
    forall i | 0 <= i < |g| ensures Gap(g, limit, width, i) {
      assert i < |h| ==> g[i] == h[i] && Gap(h, limit, width, i);
    }
  }

  lemma {:induction false} CountInPrefix(h: seq<int>, n: nat, from: int, to: int)
    requires n <= |h| && forall i :: n <= i < |h| ==> !(from <= h[i] < to)
    ensures CountIn(h, from, to) == CountIn(h[..n], from, to)
  {
    if n < |h| {
      CountInPrefix(h[..|h| - 1], n, from, to);
      assert h[..|h| - 1][..n] == h[..n];
    } else {
      assert h[..n] == h;
    }
  }

  lemma {:induction false} CountInLength(h: seq<int>, from: int, to: int, start: nat)
    requires start <= |h| && forall i :: 0 <= i < start ==> !(from <= h[i] < to)
    ensures CountIn(h, from, to) <= |h| - start
  {
    if start < |h| {
      CountInLength(h[..|h| - 1], from, to, start);
    } else if h != [] {
      CountInLength(h[..|h| - 1], from, to, start - 1);
    }
  }

  /** At most `limit` attempts of a spaced history fall in any half-open interval of one window. */
  lemma {:induction false} WindowBound(h: seq<int>, limit: nat, width: int, from: int)
    requires Sorted(h) && Spaced(h, limit, width) && limit >= 1
    ensures CountIn(h, from, from + width) <= limit
    decreases |h|
  {
    if h != [] {
      var n := |h| - 1;
      var last := h[n];
      if !(from <= last < from + width) {
        forall i | 0 <= i < n ensures Gap(h[..n], limit, width, i) {
          assert Gap(h, limit, width, i);
        }
        WindowBound(h[..n], limit, width, from);
      } else if |h| > limit {
        assert Gap(h, limit, width, n - limit);
        assert forall i :: 0 <= i <= n - limit ==> h[i] <= h[n - limit];
        CountInLength(h, from, from + width, n - limit + 1);
      } else {
        CountInLength(h, from, from + width, 0);
      }
    }
  }

  // ----- the wait -----

  /** The wait a table reports is the least one. */
  lemma WaitIsLeast(h: seq<int>, limit: nat, width: int, now: int)
    requires Sorted(h) && Spaced(h, limit, width) && limit >= 1 && width > 0 && (h == [] || h[|h| - 1] <= now)
    ensures LeastWait(h, limit, width, now, WaitFrom(Prune(h, now - width), limit, width, now))
    ensures WaitFrom(Prune(h, now - width), limit, width, now) == 0 <==> Admits(h, limit, width, now)
  {
    var p := Prune(h, now - width);
    var wait := WaitFrom(p, limit, width, now);
    PruneCounts(h, now - width);
    if |p| >= limit {
      AtMostLimit(h, limit, width, now);
      forall t | now <= t < now + wait ensures !Admits(h, limit, width, t) {
        PruneLater(h, now - width, t - width);
        PruneCounts(h, t - width);
      }
      PruneLater(h, now - width, now + wait - width);
      PruneCounts(h, now + wait - width);
      assert now + wait - width == p[0];
      PruneHead(p);
    }
  }

  lemma PruneHead(p: seq<int>)
    requires p != []
    ensures |Prune(p, p[0])| < |p|
  {
    assert Prune(p, p[0]) == Prune(p[1..], p[0]);
  }

  /** A spaced history never has more than `limit` attempts inside the window. */
  lemma AtMostLimit(h: seq<int>, limit: nat, width: int, now: int)
    requires Sorted(h) && Spaced(h, limit, width) && (h == [] || h[|h| - 1] <= now)
    ensures |Prune(h, now - width)| <= limit
  {
    var p := Prune(h, now - width);
    PruneSuffix(h, now - width);
    var n := |h| - |p|;
    hide Prune;
    if p != [] {
      assert h[n] == p[0] && Gap(h, limit, width, n);
    }
  }

  function Max(a: int, b: int): int { if a < b then b else a }

  /** With two histories to satisfy, the larger of the two waits is the least common one. */
  lemma LargerWaitIsLeast(h: seq<int>, g: seq<int>, limit: nat, width: int, limit': nat, width': int, now: int, a: int, b: int)
    requires Sorted(h) && Sorted(g) && LeastWait(h, limit, width, now, a) && LeastWait(g, limit', width', now, b)
    ensures Admits(h, limit, width, now + Max(a, b)) && Admits(g, limit', width', now + Max(a, b))
    ensures forall t :: now <= t < now + Max(a, b) ==> !Admits(h, limit, width, t) || !Admits(g, limit', width', t)
  {
    CountShrinks(h, now + a - width, now + Max(a, b) - width);
    CountShrinks(g, now + b - width', now + Max(a, b) - width');
  }

  lemma {:induction false} CountShrinks(h: seq<int>, a: int, b: int)
    requires a <= b
    ensures CountAfter(h, b) <= CountAfter(h, a)
  {
    if h != [] {
      CountShrinks(h[..|h| - 1], a, b);
    }
  }
}
