/** Facts about finite sets, sums over finite maps, and sorting, used by every other module. */
module Collections {

  datatype Option<+T> = None | Some(value: T)

  // ----- cardinalities -----

  lemma SubsetSize<T>(a: set<T>, b: set<T>)
    requires a <= b
    ensures |a| <= |b|
    ensures |b - a| == |b| - |a|
  {
    assert b == a + (b - a);
  }

  /** Pairs with distinct second components are as many as those components. */
  lemma {:induction false} SecondsSize<A, B>(pairs: set<(A, B)>, image: set<B>)
    requires forall j, k :: j in pairs && k in pairs && j.1 == k.1 ==> j == k
    requires forall k :: k in pairs ==> k.1 in image
    requires forall c :: c in image ==> exists k :: k in pairs && k.1 == c
    ensures |image| == |pairs|
  {
    if pairs != {} {
      var p :| p in pairs;
      SecondsSize(pairs - {p}, image - {p.1});
    }
  }

  /** Any set has subsets of every smaller size. */
  lemma {:induction false} TakeSubset<T>(s: set<T>, n: nat) returns (t: set<T>)
    requires n <= |s|
    ensures t <= s && |t| == n
  {
    if n == 0 {
      t := {};
    } else {
      var x :| x in s;
      var u := TakeSubset(s - {x}, n - 1);
      t := u + {x};
    }
  }

  /** The set {(k, 0), ..., (k, n - 1)} has n elements. */
  lemma {:induction false} SlotRowSize<K>(k: K, n: nat)
    ensures |set i | 0 <= i < n :: (k, i)| == n
  {
    if n > 0 {
      SlotRowSize(k, n - 1);
      assert (set i | 0 <= i < n :: (k, i)) == (set i | 0 <= i < n - 1 :: (k, i)) + {(k, n - 1)};
    }
  }

  // ----- sums over finite maps -----

  ghost function Sum<K>(m: map<K, nat>): nat
  {
    if m == map[] then 0 else
      var k :| k in m;
      m[k] + Sum(m - {k})
  }

  /** The sum does not depend on the order in which keys are visited. */
  lemma {:induction false} SumRemove<K>(m: map<K, nat>, k: K)
    requires k in m
    ensures Sum(m) == m[k] + Sum(m - {k})
    decreases |m|
  {
    var j :| j in m && Sum(m) == m[j] + Sum(m - {j});
    if j != k {
      SumRemove(m - {j}, k);
      SumRemove(m - {k}, j);
      assert (m - {j}) - {k} == (m - {k}) - {j};
    }
  }

  ghost function RowOf<K, V>(pairs: set<(K, V)>, k: K): set<(K, V)>
  {
    set p | p in pairs && p.0 == k
  }

  /** A set of pairs whose rows have known sizes has the sum of those sizes. */
  lemma {:induction false} RowsSum<K, V>(pairs: set<(K, V)>, rows: map<K, nat>)
    requires forall p :: p in pairs ==> p.0 in rows
    requires forall k :: k in rows ==> |RowOf(pairs, k)| == rows[k]
    ensures |pairs| == Sum(rows)
    decreases |rows|
  {
    if rows == map[] {
      assert pairs == {};
    } else {
      var k :| k in rows;
      var rest := pairs - RowOf(pairs, k);
      forall j | j in rows - {k} ensures |RowOf(rest, j)| == (rows - {k})[j] {
        assert RowOf(rest, j) == RowOf(pairs, j);
      }
      RowsSum(rest, rows - {k});
      SubsetSize(RowOf(pairs, k), pairs);
      SumRemove(rows, k);
    }
  }

  /** Disjoint parts of a pool, one of the needed size for every key. */
  ghost predicate Allocation<K(!new), V(!new)>(need: map<K, nat>, pool: set<V>, parts: map<K, set<V>>)
  {
    && parts.Keys == need.Keys
    && (forall k :: k in need ==> k in parts && |parts[k]| == need[k] && parts[k] <= pool)
    && (forall j, k :: j in parts && k in parts && j != k ==> parts[j] !! parts[k])
  }

  lemma {:induction false} Allocate<K(!new), V(!new)>(need: map<K, nat>, pool: set<V>) returns (parts: map<K, set<V>>)
    requires Sum(need) <= |pool|
    ensures Allocation(need, pool, parts)
    decreases |need|
  {
    if need == map[] {
      parts := map[];
    } else {
      var k :| k in need;
      SumRemove(need, k);
      var part := TakeSubset(pool, need[k]);
      SubsetSize(part, pool);
      var rest := Allocate(need - {k}, pool - part);
      parts := rest[k := part];
    }
  }

  /** No pool smaller than the total need has an allocation. */
  lemma {:induction false} AllocationFits<K(!new), V(!new)>(need: map<K, nat>, pool: set<V>, parts: map<K, set<V>>)
    requires Allocation(need, pool, parts)
    ensures Sum(need) <= |pool|
    decreases |need|
  {
    if need != map[] {
      var k :| k in need;
      SumRemove(need, k);
      assert Allocation(need - {k}, pool - parts[k], parts - {k});
      AllocationFits(need - {k}, pool - parts[k], parts - {k});
      SubsetSize(parts[k], pool);
    }
  }

  // ----- order and sorting -----

  /** Byte-wise string order, as sort.Strings uses. */
  predicate StrLeq(a: string, b: string)
  {
    a == [] || (b != [] && (a[0] < b[0] || (a[0] == b[0] && StrLeq(a[1..], b[1..]))))
  }

  lemma StrTotal(a: string, b: string)
    ensures StrLeq(a, b) || StrLeq(b, a)
  {
  }

  lemma {:induction false} StrAntisymmetric(a: string, b: string)
    requires StrLeq(a, b) && StrLeq(b, a)
    ensures a == b
  {
    if a != [] {
      StrAntisymmetric(a[1..], b[1..]);
      assert a == [a[0]] + a[1..] && b == [b[0]] + b[1..];
    }
  }

  lemma StrTransitive(a: string, b: string, c: string)
    requires StrLeq(a, b) && StrLeq(b, c)
    ensures StrLeq(a, c)
  {
  }

  /** At the first place where two strings differ, the smaller one ends or has the smaller character. */
  lemma {:induction false} StrLeqMeans(a: string, b: string)
    ensures StrLeq(a, b) <==>
            a <= b || exists i :: 0 <= i < |a| && i < |b| && a[..i] == b[..i] && a[i] < b[i]
  {
    if a == [] {
    } else if b == [] {
    } else if a[0] == b[0] {
      StrLeqMeans(a[1..], b[1..]);
      assert a[1..] <= b[1..] <==> a <= b;
      if i :| 0 <= i < |a| && i < |b| && a[..i] == b[..i] && a[i] < b[i] {
        assert i > 0 && a[1..][..i - 1] == a[..i][1..] && b[1..][..i - 1] == b[..i][1..];
        assert a[1..][i - 1] == a[i] && b[1..][i - 1] == b[i];
      }
      if i :| 0 <= i < |a[1..]| && i < |b[1..]| && a[1..][..i] == b[1..][..i] && a[1..][i] < b[1..][i] {
        assert a[..i + 1] == [a[0]] + a[1..][..i] && b[..i + 1] == [b[0]] + b[1..][..i];
      }
    } else {
      assert a[..0] == b[..0];
      if i :| 0 <= i < |a| && i < |b| && a[..i] == b[..i] && a[i] < b[i] {
        if i > 0 { assert a[..i][0] == a[0] && b[..i][0] == b[0]; }
      }
    }
  }

  ghost predicate TotalOrder<T(!new)>(leq: (T, T) -> bool)
  {
    && (forall x, y :: leq(x, y) || leq(y, x))
    && (forall x, y :: leq(x, y) && leq(y, x) ==> x == y)
    && (forall x, y, z :: leq(x, y) && leq(y, z) ==> leq(x, z))
  }

  lemma StrOrder()
    ensures TotalOrder(StrLeq)
  {
    forall x, y ensures StrLeq(x, y) || StrLeq(y, x) { StrTotal(x, y); }
    forall x, y | StrLeq(x, y) && StrLeq(y, x) ensures x == y { StrAntisymmetric(x, y); }
    forall x, y, z | StrLeq(x, y) && StrLeq(y, z) ensures StrLeq(x, z) { StrTransitive(x, y, z); }
  }

  ghost predicate IsLeast<T(!new)>(m: T, s: set<T>, leq: (T, T) -> bool)
  {
    m in s && forall x :: x in s ==> leq(m, x)
  }

  lemma LeastOfTwo<T(!new)>(y: T, m: T, s: set<T>, leq: (T, T) -> bool) returns (l: T)
    requires TotalOrder(leq) && IsLeast(m, s, leq)
    ensures IsLeast(l, s + {y}, leq)
  {
    l := if leq(m, y) then m else y;
    assert leq(l, m) && leq(l, y);
    forall x | x in s + {y} ensures leq(l, x) {
      if x in s {
        assert leq(m, x);
      }
    }
  }

  lemma {:induction false} LeastExists<T(!new)>(s: set<T>, leq: (T, T) -> bool) returns (m: T)
    requires TotalOrder(leq) && s != {}
    ensures IsLeast(m, s, leq)
  {
    var y :| y in s;
    var rest := s - {y};
    assert s == rest + {y};
    if rest == {} {
      m := y;
      assert leq(y, y);
    } else {
      m := LeastExists(rest, leq);
      m := LeastOfTwo(y, m, rest, leq);
    }
  }

  function Least<T(!new, ==)>(s: set<T>, leq: (T, T) -> bool): (m: T)
    requires TotalOrder(leq) && s != {}
    ensures IsLeast(m, s, leq)
  {
    assert exists m :: m in s && forall x :: x in s ==> leq(m, x) by {
      var l := LeastExists(s, leq);
    }
    var m :| m in s && forall x :: x in s ==> leq(m, x);
    m
  }

  /** ORDER BY leq LIMIT n: the n least elements of s, in order. */
  function TakeLeast<T(!new, ==)>(s: set<T>, leq: (T, T) -> bool, n: nat): (r: seq<T>)
    requires TotalOrder(leq)
    ensures |r| == if n < |s| then n else |s|
    ensures forall x :: x in r ==> x in s
    ensures forall i, j :: 0 <= i < j < |r| ==> leq(r[i], r[j]) && r[i] != r[j]
    ensures forall x, y :: x in r && y in s && y !in r ==> leq(x, y)
    decreases n
  {
    if n == 0 || s == {} then [] else
      var m := Least(s, leq);
      [m] + TakeLeast(s - {m}, leq, n - 1)
  }

  /** All elements of s in increasing order. */
  function SortSet<T(!new, ==)>(s: set<T>, leq: (T, T) -> bool): (r: seq<T>)
    requires TotalOrder(leq)
    ensures |r| == |s|
    ensures forall x :: x in r <==> x in s
    ensures forall i, j :: 0 <= i < j < |r| ==> leq(r[i], r[j]) && r[i] != r[j]
  {
    var r := TakeLeast(s, leq, |s|);
    assert forall x :: x in s ==> x in r by {
      var t := set x | x in r;
      assert t <= s;
      SeqSetSize(r);
      SubsetSize(t, s);
      assert s - t == {};
    }
    r
  }

  lemma {:induction false} SeqSetSize<T>(r: seq<T>)
    requires forall i, j :: 0 <= i < j < |r| ==> r[i] != r[j]
    ensures |set x | x in r| == |r|
  {
    if r != [] {
      var n := |r| - 1;
      SeqSetSize(r[..n]);
      assert (set x | x in r) == (set x | x in r[..n]) + {r[n]};
    }
  }

  predicate Distinct<T(==)>(r: seq<T>)
  {
    forall i, j :: 0 <= i < j < |r| ==> r[i] != r[j]
  }

  /** The first n elements. */
  ghost function Firsts<T>(r: seq<T>, n: nat): set<T>
    requires n <= |r|
  {
    set k | 0 <= k < n :: r[k]
  }

  lemma FirstsGrow<T>(r: seq<T>, n: nat)
    requires Distinct(r) && n < |r|
    ensures r[n] !in Firsts(r, n) && r[n] in r && Firsts(r, n + 1) == Firsts(r, n) + {r[n]}
  {
  }

  lemma FirstsAll<T>(r: seq<T>)
    ensures forall x :: x in r <==> x in Firsts(r, |r|)
  {
  }

  lemma MapUnion<K, V>(m: map<K, V>, a: map<K, V>, b: map<K, V>)
    requires m.Keys == a.Keys + b.Keys && a.Keys !! b.Keys
    requires forall k :: k in a ==> k in m && m[k] == a[k]
    requires forall k :: k in b ==> k in m && m[k] == b[k]
    ensures m == a + b
  {
  }

  /** Writes to different keys commute. */
  lemma MapSwap<K, V>(m: map<K, V>, j: K, x: V, k: K, y: V)
    requires j != k
    ensures m[j := x][k := y] == m[k := y][j := x]
  {
  }
}
