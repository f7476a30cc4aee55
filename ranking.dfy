/**
 * The query vocabulary the views use on their tables, stated over sequences:
 * `filter(...)` keeps matching rows in table order, `order_by('-a', '-b')`
 * sorts by a key pair, larger first, and `[:n]` keeps a prefix.
 *
 * The database leaves the order of rows with equal keys unspecified; the sort
 * below is stable (ties keep table order), and every property proved about it
 * speaks only of the keys.
 */
module Ranking {

  import opened Wrappers

  /** The key of an `order_by('-major', '-minor')`, compared lexicographically. */
  datatype Rank = Rank(major: int, minor: int)

  /** `a` may come before `b` in a descending order. */
  predicate AtLeast(a: Rank, b: Rank) {
    a.major > b.major || (a.major == b.major && a.minor >= b.minor)
  }

  /** Every row ranks at least as high as every later row. */
  predicate NonIncreasing<T>(s: seq<T>, key: T -> Rank) {
    forall i, j :: 0 <= i < j < |s| ==> AtLeast(key(s[i]), key(s[j]))
  }

  /** No two rows share an identifier. */
  ghost predicate DistinctBy<T, K>(s: seq<T>, id: T -> K) {
    forall i, j :: 0 <= i < j < |s| ==> id(s[i]) != id(s[j])
  }

  /** `filter(p)`: the rows satisfying `p`, in table order. */
  function Filter<T>(s: seq<T>, p: T -> bool): (r: seq<T>)
    ensures |r| <= |s|
    ensures forall i :: 0 <= i < |r| ==> p(r[i])
    ensures forall i :: 0 <= i < |s| && p(s[i]) ==> s[i] in r
  {
    if s == [] then []
    else
      assert s == [s[0]] + s[1..];
      (if p(s[0]) then [s[0]] else []) + Filter(s[1..], p)
  }

  /** `filter(p)` takes each row at most as often as the table holds it. */
  lemma {:induction false} FilterSubMultiset<T>(s: seq<T>, p: T -> bool)
    ensures multiset(Filter(s, p)) <= multiset(s)
  {
    if s != [] {
      FilterSubMultiset(s[1..], p);
      assert s == [s[0]] + s[1..];
    }
  }

  /** A filter nothing satisfies returns no rows. */
  lemma {:induction false} FilterNone<T>(s: seq<T>, p: T -> bool)
    requires forall i :: 0 <= i < |s| ==> !p(s[i])
    ensures Filter(s, p) == []
  {
    if s != [] {
      FilterNone(s[1..], p);
    }
  }

  /** `filter(p)` holds exactly the rows satisfying `p`. */
  lemma FilterMembers<T>(s: seq<T>, p: T -> bool)
    ensures forall x :: x in Filter(s, p) <==> x in s && p(x)
  {
    var f := Filter(s, p);
    FilterSubMultiset(s, p);
    forall x | x in f ensures x in s && p(x) {
      assert x in multiset(f);
      var i :| 0 <= i < |f| && f[i] == x;
    }
    forall x | x in s && p(x) ensures x in f {
      var i :| 0 <= i < |s| && s[i] == x;
    }
  }

  /** Each row of `filter(p)` is a row of the table. */
  lemma {:induction false} FilterRowFromInput<T>(s: seq<T>, p: T -> bool, j: nat)
    requires j < |Filter(s, p)|
    ensures exists k :: 0 <= k < |s| && s[k] == Filter(s, p)[j]
  {
    var f := Filter(s, p);
    var tail := Filter(s[1..], p);
    if p(s[0]) && j == 0 {
      assert s[0] == f[0];
    } else {
      var i := if p(s[0]) then j - 1 else j;
      assert f[j] == tail[i];
      FilterRowFromInput(s[1..], p, i);
      var k :| 0 <= k < |s[1..]| && s[1..][k] == tail[i];
      assert s[k + 1] == f[j];
    }
  }

  /** A filter every row satisfies returns the rows unchanged. */
  lemma {:induction false} FilterAll<T>(s: seq<T>, p: T -> bool)
    requires forall i :: 0 <= i < |s| ==> p(s[i])
    ensures Filter(s, p) == s
  {
    if s != [] {
      FilterAll(s[1..], p);
      assert s == [s[0]] + s[1..];
    }
  }

  lemma ConcatAssoc<T>(x: seq<T>, y: seq<T>, z: seq<T>)
    ensures x + (y + z) == (x + y) + z
  {
  }

  lemma FilterHead<T>(s: seq<T>, p: T -> bool)
    requires s != []
    ensures Filter(s, p) == (if p(s[0]) then [s[0]] else []) + Filter(s[1..], p)
  {
  }

  /** Filtering a concatenation filters each part. */
  lemma {:induction false} FilterAppend<T>(a: seq<T>, b: seq<T>, p: T -> bool)
    ensures Filter(a + b, p) == Filter(a, p) + Filter(b, p)
  {
    if a == [] {
      assert a + b == b;
    } else {
      var head := if p(a[0]) then [a[0]] else [];
      calc {
        Filter(a + b, p);
      == { FilterHead(a + b, p); assert (a + b)[0] == a[0]; assert (a + b)[1..] == a[1..] + b; }
        head + Filter(a[1..] + b, p);
      == { FilterAppend(a[1..], b, p); }
        head + (Filter(a[1..], p) + Filter(b, p));
      == { ConcatAssoc(head, Filter(a[1..], p), Filter(b, p)); }
        (head + Filter(a[1..], p)) + Filter(b, p);
      == { FilterHead(a, p); }
        Filter(a, p) + Filter(b, p);
      }
    }
  }

  /** Filtering out the one row at `k` that fails `p` leaves the others in order. */
  lemma {:induction false} FilterDropsOne<T>(s: seq<T>, k: nat, p: T -> bool)
    requires k < |s| && !p(s[k])
    requires forall i :: 0 <= i < |s| && i != k ==> p(s[i])
    ensures Filter(s, p) == s[..k] + s[k + 1..]
  {
    FilterHead(s, p);
    var tail := s[1..];
    if k == 0 {
      forall i | 0 <= i < |tail| ensures p(tail[i]) {
        assert tail[i] == s[i + 1];
      }
      FilterAll(tail, p);
      assert s[..0] + s[1..] == tail;
    } else {
      forall i | 0 <= i < |tail| && i != k - 1 ensures p(tail[i]) {
        assert tail[i] == s[i + 1];
      }
      assert tail[k - 1] == s[k];
      FilterDropsOne(tail, k - 1, p);
      assert s[..k] == [s[0]] + tail[..k - 1];
      assert s[k + 1..] == tail[k..];
      ConcatAssoc([s[0]], tail[..k - 1], tail[k..]);
    }
  }

  /** `get(...)` / `first()`: the position of the first row satisfying `p`, if any. */
  function IndexWhere<T>(s: seq<T>, p: T -> bool): (r: Option<nat>)
    ensures r.Some? ==> r.value < |s| && p(s[r.value])
    ensures r.Some? ==> forall k :: 0 <= k < r.value ==> !p(s[k])
    ensures r.None? ==> forall k :: 0 <= k < |s| ==> !p(s[k])
  {
    if s == [] then None
    else if p(s[0]) then Some(0)
    else match IndexWhere(s[1..], p)
      case None => None
      case Some(k) => Some(k + 1)
  }

  /** `[:n]`: Python slicing keeps at most the first `n` rows. */
  function Cap<T>(s: seq<T>, n: nat): (r: seq<T>)
    ensures |r| == if |s| <= n then |s| else n
    ensures r == s[..|r|]
  {
    if |s| <= n then s else s[..n]
  }

  /** Places `x` before the first row it ranks at least as high as. */
  function Insert<T>(x: T, s: seq<T>, key: T -> Rank): (r: seq<T>)
    ensures |r| == |s| + 1
    ensures multiset(r) == multiset(s) + multiset{x}
  {
    if s == [] then [x]
    else if AtLeast(key(x), key(s[0])) then [x] + s
    else assert s == [s[0]] + s[1..]; [s[0]] + Insert(x, s[1..], key)
  }

  /** `order_by(...)` with a descending key: a stable insertion sort. */
  function SortDesc<T>(s: seq<T>, key: T -> Rank): (r: seq<T>)
    ensures |r| == |s|
    ensures multiset(r) == multiset(s)
  {
    if s == [] then []
    else assert s == [s[0]] + s[1..]; Insert(s[0], SortDesc(s[1..], key), key)
  }

  /** `order_by(...)[:k]`: the `k` highest-ranked rows. */
  function TopBy<T>(s: seq<T>, key: T -> Rank, k: nat): seq<T>
  {
    Cap(SortDesc(s, key), k)
  }

  /** Sorting keeps exactly the rows it was given. */
  lemma SortDescMembers<T>(s: seq<T>, key: T -> Rank)
    ensures forall x :: x in SortDesc(s, key) <==> x in s
  {
    forall x ensures x in SortDesc(s, key) <==> x in s {
      assert x in SortDesc(s, key) <==> x in multiset(SortDesc(s, key));
    }
  }

  /** Rows of a sub-multiset are rows of the whole. */
  lemma SubMultisetMembers<T>(a: seq<T>, b: seq<T>)
    requires multiset(a) <= multiset(b)
    ensures forall y :: y in a ==> y in b
  {
    forall y | y in a ensures y in b {
      assert y in multiset(a);
    }
  }

  lemma {:induction false} InsertKeepsOrder<T>(x: T, s: seq<T>, key: T -> Rank)
    requires NonIncreasing(s, key)
    ensures NonIncreasing(Insert(x, s, key), key)
  {
    if s == [] {
    } else if AtLeast(key(x), key(s[0])) {
      var r := [x] + s;
      forall i, j | 0 <= i < j < |r| ensures AtLeast(key(r[i]), key(r[j])) {
        if i > 0 {
          assert r[i] == s[i - 1] && r[j] == s[j - 1];
        } else {
          assert AtLeast(key(s[0]), key(s[j - 1]));
        }
      }
    } else {
      var tail := Insert(x, s[1..], key);
      assert NonIncreasing(s[1..], key) by {
        forall i, j | 0 <= i < j < |s[1..]| ensures AtLeast(key(s[1..][i]), key(s[1..][j])) {
          assert s[1..][i] == s[i + 1] && s[1..][j] == s[j + 1];
        }
      }
      InsertKeepsOrder(x, s[1..], key);
      SubMultisetMembers(tail, s[1..] + [x]);
      ConsOrdered(s, tail, x, key);
    }
  }

  /** The head of an ordered `s`, ranking above `x`, may lead ordered rows drawn from the rest of `s` and `x`. */
  lemma ConsOrdered<T>(s: seq<T>, tail: seq<T>, x: T, key: T -> Rank)
    requires s != [] && NonIncreasing(s, key) && NonIncreasing(tail, key)
    requires AtLeast(key(s[0]), key(x))
    requires forall y :: y in tail ==> y in s[1..] + [x]
    ensures NonIncreasing([s[0]] + tail, key)
  {
    var r := [s[0]] + tail;
    forall i, j | 0 <= i < j < |r| ensures AtLeast(key(r[i]), key(r[j])) {
      if i > 0 {
        assert r[i] == tail[i - 1] && r[j] == tail[j - 1];
      } else {
        assert r[j] in tail;
        if r[j] != x {
          assert r[j] in s[1..];
          var k :| 0 <= k < |s[1..]| && s[1..][k] == r[j];
          assert s[k + 1] == r[j];
        }
      }
    }
  }

  /** The sort puts rows in non-increasing key order. */
  lemma {:induction false} SortDescOrdered<T>(s: seq<T>, key: T -> Rank)
    ensures NonIncreasing(SortDesc(s, key), key)
  {
    if s != [] {
      SortDescOrdered(s[1..], key);
      InsertKeepsOrder(s[0], SortDesc(s[1..], key), key);
    }
  }

  /** Putting the head of `s` in front of rows drawn from the rest of `s` and `x` keeps identifiers distinct. */
  lemma ConsDistinct<T, K>(s: seq<T>, tail: seq<T>, x: T, id: T -> K)
    requires s != [] && DistinctBy(s, id) && DistinctBy(tail, id)
    requires forall y :: y in s ==> id(y) != id(x)
    requires forall y :: y in tail ==> y in s[1..] + [x]
    ensures DistinctBy([s[0]] + tail, id)
  {
    var r := [s[0]] + tail;
    forall i, j | 0 <= i < j < |r| ensures id(r[i]) != id(r[j]) {
      if i > 0 {
        assert r[i] == tail[i - 1] && r[j] == tail[j - 1];
      } else {
        assert r[j] in tail;
        if r[j] != x {
          assert r[j] in s[1..];
          var k :| 0 <= k < |s[1..]| && s[1..][k] == r[j];
          assert s[k + 1] == r[j];
        }
      }
    }
  }

  lemma {:induction false} InsertKeepsDistinct<T, K>(x: T, s: seq<T>, key: T -> Rank, id: T -> K)
    requires DistinctBy(s, id)
    requires forall y :: y in s ==> id(y) != id(x)
    ensures DistinctBy(Insert(x, s, key), id)
  {
    if s != [] && !AtLeast(key(x), key(s[0])) {
      var tail := Insert(x, s[1..], key);
      assert DistinctBy(s[1..], id) by {
        forall i, j | 0 <= i < j < |s[1..]| ensures id(s[1..][i]) != id(s[1..][j]) {
          assert s[1..][i] == s[i + 1] && s[1..][j] == s[j + 1];
        }
      }
      InsertKeepsDistinct(x, s[1..], key, id);
      SubMultisetMembers(tail, s[1..] + [x]);
      ConsDistinct(s, tail, x, id);
    } else if s != [] {
      var r := [x] + s;
      forall i, j | 0 <= i < j < |r| ensures id(r[i]) != id(r[j]) {
        if i > 0 {
          assert r[i] == s[i - 1] && r[j] == s[j - 1];
        } else {
          assert r[j] in s;
        }
      }
    }
  }

  /** Sorting neither creates nor merges rows: distinct identifiers stay distinct. */
  lemma {:induction false} SortDescKeepsDistinct<T, K>(s: seq<T>, key: T -> Rank, id: T -> K)
    requires DistinctBy(s, id)
    ensures DistinctBy(SortDesc(s, key), id)
  {
    if s != [] {
      assert DistinctBy(s[1..], id) by {
        forall i, j | 0 <= i < j < |s[1..]| ensures id(s[1..][i]) != id(s[1..][j]) {
          assert s[1..][i] == s[i + 1] && s[1..][j] == s[j + 1];
        }
      }
      SortDescKeepsDistinct(s[1..], key, id);
      SubMultisetMembers(SortDesc(s[1..], key), s[1..]);
      forall y | y in SortDesc(s[1..], key) ensures id(y) != id(s[0]) {
        var k :| 0 <= k < |s[1..]| && s[1..][k] == y;
        assert s[k + 1] == y;
      }
      InsertKeepsDistinct(s[0], SortDesc(s[1..], key), key, id);
    }
  }

  /** Filtering keeps a subsequence, so distinct identifiers stay distinct. */
  lemma {:induction false} FilterKeepsDistinct<T, K>(s: seq<T>, p: T -> bool, id: T -> K)
    requires DistinctBy(s, id)
    ensures DistinctBy(Filter(s, p), id)
  {
    if s != [] {
      assert DistinctBy(s[1..], id) by {
        forall i, j | 0 <= i < j < |s[1..]| ensures id(s[1..][i]) != id(s[1..][j]) {
          assert s[1..][i] == s[i + 1] && s[1..][j] == s[j + 1];
        }
      }
      FilterKeepsDistinct(s[1..], p, id);
      var tail := Filter(s[1..], p);
      if p(s[0]) {
        var r := [s[0]] + tail;
        forall j | 0 <= j < |tail| ensures id(s[0]) != id(tail[j]) {
          FilterRowFromInput(s[1..], p, j);
          var k :| 0 <= k < |s[1..]| && s[1..][k] == tail[j];
          assert s[k + 1] == tail[j];
        }
        forall i, j | 0 <= i < j < |r| ensures id(r[i]) != id(r[j]) {
          assert r[j] == tail[j - 1];
          if i > 0 {
            assert r[i] == tail[i - 1];
          }
        }
      }
    }
  }

  /**
   * What an `order_by(...)[:k]` query returns: at most `k` rows of the input,
   * in non-increasing key order, and every input row left out ranks no higher
   * than any row kept.
   */
  lemma TopByProperties<T>(s: seq<T>, key: T -> Rank, k: nat)
    ensures |TopBy(s, key, k)| == if |s| <= k then |s| else k
    ensures NonIncreasing(TopBy(s, key, k), key)
    ensures multiset(TopBy(s, key, k)) <= multiset(s)
    ensures forall y :: y in TopBy(s, key, k) ==> y in s
    ensures forall x, y :: x in s && x !in TopBy(s, key, k) && y in TopBy(s, key, k) ==> AtLeast(key(y), key(x))
  {
    var sorted := SortDesc(s, key);
    var r := TopBy(s, key, k);
    SortDescOrdered(s, key);
    SubMultisetMembers(s, sorted);
    assert r == sorted[..|r|];
    forall i, j | 0 <= i < j < |r| ensures AtLeast(key(r[i]), key(r[j])) {
      assert r[i] == sorted[i] && r[j] == sorted[j];
    }
    assert multiset(sorted) == multiset(r) + multiset(sorted[|r|..]) by {
      assert sorted == r + sorted[|r|..];
    }
    SubMultisetMembers(r, s);
    forall x, y | x in s && x !in r && y in r ensures AtLeast(key(y), key(x)) {
      assert x in sorted;
      var jx :| 0 <= jx < |sorted| && sorted[jx] == x;
      forall m | 0 <= m < |r| ensures sorted[m] != x {
        assert r[m] == sorted[m];
      }
      var jy :| 0 <= jy < |r| && r[jy] == y;
      assert sorted[jy] == y;
    }
  }

  /** The capped sort of distinct rows holds distinct rows. */
  lemma TopByKeepsDistinct<T, K>(s: seq<T>, key: T -> Rank, k: nat, id: T -> K)
    requires DistinctBy(s, id)
    ensures DistinctBy(TopBy(s, key, k), id)
  {
    SortDescKeepsDistinct(s, key, id);
    var sorted := SortDesc(s, key);
    var r := TopBy(s, key, k);
    forall i, j | 0 <= i < j < |r| ensures id(r[i]) != id(r[j]) {
      assert r[i] == sorted[i] && r[j] == sorted[j];
    }
  }

  /** A row of `filter(p).order_by(...)[:k]` is an input row satisfying `p`. */
  lemma TopOfFilterMembers<T>(s: seq<T>, p: T -> bool, key: T -> Rank, k: nat)
    ensures forall x :: x in TopBy(Filter(s, p), key, k) ==> x in s && p(x)
  {
    var f := Filter(s, p);
    TopByProperties(f, key, k);
    FilterSubMultiset(s, p);
    SubMultisetMembers(f, s);
    forall x | x in TopBy(f, key, k) ensures p(x) {
      var i :| 0 <= i < |f| && f[i] == x;
    }
  }

  /** An input row satisfying `p` but left out of `filter(p).order_by(...)[:k]` ranks no higher than any row kept. */
  lemma TopOfFilterMaximal<T>(s: seq<T>, p: T -> bool, key: T -> Rank, k: nat)
    ensures var r := TopBy(Filter(s, p), key, k);
            forall x, y :: x in s && p(x) && x !in r && y in r ==> AtLeast(key(y), key(x))
  {
    var f := Filter(s, p);
    TopByProperties(f, key, k);
    forall x | x in s && p(x) ensures x in f {
      var i :| 0 <= i < |s| && s[i] == x;
    }
  }

  /** `filter(p).order_by(...)[:k]` is either full or holds every row satisfying `p`. */
  lemma TopOfFilterComplete<T>(s: seq<T>, p: T -> bool, key: T -> Rank, k: nat)
    ensures var r := TopBy(Filter(s, p), key, k);
            |r| == k || forall x :: x in s && p(x) ==> x in r
  {
    var f := Filter(s, p);
    if |f| <= k {
      assert TopBy(f, key, k) == SortDesc(f, key);
      SortDescMembers(f, key);
      forall x | x in s && p(x) ensures x in f {
        var i :| 0 <= i < |s| && s[i] == x;
      }
    }
  }

  /** Filtering, sorting and capping distinct rows leaves distinct rows. */
  lemma TopOfFilterDistinct<T, K>(s: seq<T>, p: T -> bool, key: T -> Rank, k: nat, id: T -> K)
    requires DistinctBy(s, id)
    ensures DistinctBy(TopBy(Filter(s, p), key, k), id)
  {
    FilterKeepsDistinct(s, p, id);
    TopByKeepsDistinct(Filter(s, p), key, k, id);
  }

  /** `filter(p).order_by(...)` holds exactly the input rows satisfying `p`. */
  lemma SortedFilterMembers<T>(s: seq<T>, p: T -> bool, key: T -> Rank)
    ensures forall x :: x in SortDesc(Filter(s, p), key) <==> x in s && p(x)
  {
    var f := Filter(s, p);
    FilterSubMultiset(s, p);
    SubMultisetMembers(f, s);
    forall x ensures x in SortDesc(f, key) <==> x in s && p(x) {
      assert x in SortDesc(f, key) <==> x in multiset(SortDesc(f, key));
      if x in f {
        var i :| 0 <= i < |f| && f[i] == x;
      }
      if x in s && p(x) {
        var i :| 0 <= i < |s| && s[i] == x;
      }
    }
  }
}
