/** `Array.prototype.sort` with a comparator, as the pages use it: a stable
    sort (ECMAScript 2019 requires stability) on a copy of the list. `le(a, b)`
    says that `a` may stand before `b`, i.e. the comparator returns a value
    `<= 0` for `(a, b)`. */
module Sorting {

  /** A comparator that orders every pair consistently. */
  ghost predicate TotalPreorder<T(!new)>(le: (T, T) -> bool) {
    (forall a, b :: le(a, b) || le(b, a))
    && (forall a, b, c :: le(a, b) && le(b, c) ==> le(a, c))
  }

  predicate SortedBy<T>(s: seq<T>, le: (T, T) -> bool) {
    forall i, j :: 0 <= i < j < |s| ==> le(s[i], s[j])
  }

  /** Puts `x` in front of the first element it may precede; elements it
      ties with therefore stay behind it, which keeps the sort stable. */
  function Insert<T>(x: T, s: seq<T>, le: (T, T) -> bool): (r: seq<T>)
    ensures |r| == |s| + 1
    ensures multiset(r) == multiset(s) + multiset{x}
  {
    if |s| == 0 then [x]
    else if le(x, s[0]) then [x] + s
    else
      var rest := Insert(x, s[1..], le);
      assert s == [s[0]] + s[1..];
      [s[0]] + rest
  }

  function SortBy<T>(s: seq<T>, le: (T, T) -> bool): (r: seq<T>)
    ensures |r| == |s|
    ensures multiset(r) == multiset(s)
  {
    if |s| == 0 then []
    else
      assert s == [s[0]] + s[1..];
      Insert(s[0], SortBy(s[1..], le), le)
  }

  lemma {:induction false} InsertSorted<T(!new)>(x: T, s: seq<T>, le: (T, T) -> bool)
    requires TotalPreorder(le) && SortedBy(s, le)
    ensures SortedBy(Insert(x, s, le), le)
  {
    if |s| == 0 {
    } else if le(x, s[0]) {
      forall j | 0 <= j < |s| ensures le(x, s[j]) {
        if j > 0 {
          assert le(s[0], s[j]);
        }
      }
      SortedCons(x, s, le);
    } else {
      SortedTail(s, le);
      InsertSorted(x, s[1..], le);
      var rest := Insert(x, s[1..], le);
      HeadPrecedesInsert(x, s, le);
      SortedCons(s[0], rest, le);
    }
  }

  /** The tail of a sorted list is sorted. */
  lemma SortedTail<T>(s: seq<T>, le: (T, T) -> bool)
    requires |s| > 0 && SortedBy(s, le)
    ensures SortedBy(s[1..], le)
  {
    forall i, j | 0 <= i < j < |s[1..]| ensures le(s[1..][i], s[1..][j]) {
      assert s[1..][i] == s[i + 1] && s[1..][j] == s[j + 1];
    }
  }

  /** An element that may precede every element of a sorted list can head it. */
  lemma SortedCons<T>(a: T, rest: seq<T>, le: (T, T) -> bool)
    requires SortedBy(rest, le)
    requires forall j :: 0 <= j < |rest| ==> le(a, rest[j])
    ensures SortedBy([a] + rest, le)
  {
    var r := [a] + rest;
    forall i, j | 0 <= i < j < |r| ensures le(r[i], r[j]) {
      if i == 0 {
        assert r[j] == rest[j - 1];
      } else {
        assert r[i] == rest[i - 1] && r[j] == rest[j - 1];
      }
    }
  }

  /** When `x` goes past the head, the head may precede all of the rest. */
  lemma HeadPrecedesInsert<T(!new)>(x: T, s: seq<T>, le: (T, T) -> bool)
    requires TotalPreorder(le) && SortedBy(s, le)
    requires |s| > 0 && !le(x, s[0])
    ensures forall j :: 0 <= j < |Insert(x, s[1..], le)| ==> le(s[0], Insert(x, s[1..], le)[j])
  {
    assert le(s[0], x);
    var rest := Insert(x, s[1..], le);
    forall j | 0 <= j < |rest| ensures le(s[0], rest[j]) {
      assert rest[j] in multiset(rest);
      assert rest[j] in multiset(s[1..]) || rest[j] == x;
      if rest[j] != x {
        var k :| 0 <= k < |s[1..]| && s[1..][k] == rest[j];
        assert s[k + 1] == rest[j];
      }
    }
  }

  lemma {:induction false} SortBySorted<T(!new)>(s: seq<T>, le: (T, T) -> bool)
    requires TotalPreorder(le)
    ensures SortedBy(SortBy(s, le), le)
  {
    if |s| > 0 {
      SortBySorted(s[1..], le);
      InsertSorted(s[0], SortBy(s[1..], le), le);
    }
  }

  // ---------------------------------------------------------------------------
  // Stability

  ghost predicate Distinct<T>(s: seq<T>) {
    forall p, q :: 0 <= p < q < |s| ==> s[p] != s[q]
  }

  /** Tied elements stand in `r` in the order they stood in `s`. */
  ghost predicate Stable<T>(s: seq<T>, r: seq<T>, le: (T, T) -> bool) {
    forall i, j :: 0 <= i < j < |r| && le(r[j], r[i]) ==>
      exists p, q :: 0 <= p < q < |s| && s[p] == r[i] && s[q] == r[j]
  }

  /** Where `Insert` puts `x`: before the first element it may precede. */
  function InsertPos<T>(x: T, s: seq<T>, le: (T, T) -> bool): (k: nat)
    ensures k <= |s|
  {
    if |s| == 0 || le(x, s[0]) then 0 else 1 + InsertPos(x, s[1..], le)
  }

  /** `x` goes in at `InsertPos`, the elements before it and after it
      keeping their places, and (`InsertPasses`) `x` may precede none of
      the elements it passes. */
  lemma {:induction false} InsertShape<T>(x: T, s: seq<T>, le: (T, T) -> bool)
    ensures var k, r := InsertPos(x, s, le), Insert(x, s, le);
            r[k] == x
            && (forall m :: 0 <= m < k ==> r[m] == s[m])
            && (forall m :: k < m < |r| ==> r[m] == s[m - 1])
  {
    if |s| > 0 && !le(x, s[0]) {
      InsertShape(x, s[1..], le);
      var rest, r, k := Insert(x, s[1..], le), Insert(x, s, le), InsertPos(x, s[1..], le);
      assert r == [s[0]] + rest && InsertPos(x, s, le) == k + 1;
      assert r[k + 1] == rest[k];
      forall m | 0 < m < |r| ensures r[m] == rest[m - 1] && (m < |s| ==> s[m] == s[1..][m - 1]) {
      }
    }
  }

  lemma {:induction false} InsertPasses<T>(x: T, s: seq<T>, le: (T, T) -> bool)
    ensures forall m :: 0 <= m < InsertPos(x, s, le) ==> !le(x, s[m])
  {
    if |s| > 0 && !le(x, s[0]) {
      InsertPasses(x, s[1..], le);
      forall m | 0 < m < InsertPos(x, s, le) ensures !le(x, s[m]) {
        assert s[m] == s[1..][m - 1];
      }
    }
  }

  /** Every element of a permutation of `t` stands somewhere in `t`. */
  lemma PositionIn<T>(e: T, r: seq<T>, t: seq<T>)
    requires multiset(r) == multiset(t) && e in r
    ensures exists q :: 0 <= q < |t| && t[q] == e
  {
    assert e in multiset(r);
    assert e in t;
  }

  /** The sort is stable: of two tied elements of a list without repeats,
      the one that came first in the input comes first in the output. */
  lemma {:induction false} SortByStable<T>(s: seq<T>, le: (T, T) -> bool)
    requires Distinct(s)
    ensures Stable(s, SortBy(s, le), le)
  {
    if |s| > 0 {
      var x, t := s[0], s[1..];
      assert Distinct(t) by {
        forall p, q | 0 <= p < q < |t| ensures t[p] != t[q] {
          assert t[p] == s[p + 1] && t[q] == s[q + 1];
        }
      }
      SortByStable(t, le);
      var sorted := SortBy(t, le);
      var k := InsertPos(x, sorted, le);
      InsertShape(x, sorted, le);
      InsertPasses(x, sorted, le);
      var r := Insert(x, sorted, le);
      assert r == SortBy(s, le);
      forall i, j | 0 <= i < j < |r| && le(r[j], r[i])
        ensures exists p, q :: 0 <= p < q < |s| && s[p] == r[i] && s[q] == r[j]
      {
        TiedPair(s, sorted, r, le, k, i, j);
      }
    }
  }

  /** One tied pair of `Insert(s[0], SortBy(s[1..]))`, laid out as
      `InsertShape` describes. */
  lemma TiedPair<T>(s: seq<T>, sorted: seq<T>, r: seq<T>, le: (T, T) -> bool, k: nat, i: int, j: int)
    requires |s| > 0 && Distinct(s) && multiset(sorted) == multiset(s[1..])
    requires Stable(s[1..], sorted, le)
    requires k <= |sorted| && |r| == |sorted| + 1 && r[k] == s[0]
    requires forall m :: 0 <= m < k ==> r[m] == sorted[m] && !le(s[0], sorted[m])
    requires forall m :: k < m < |r| ==> r[m] == sorted[m - 1]
    requires 0 <= i < j < |r| && le(r[j], r[i])
    ensures exists p, q :: 0 <= p < q < |s| && s[p] == r[i] && s[q] == r[j]
  {
    var t := s[1..];
    if i == k {
      assert r[j] == sorted[j - 1];
      PositionIn(r[j], sorted, t);
      var q :| 0 <= q < |t| && t[q] == r[j];
      assert s[0] == r[i] && s[q + 1] == r[j];
    } else if j == k {
      assert false;
    } else {
      var i', j' := if i < k then i else i - 1, if j < k then j else j - 1;
      assert r[i] == sorted[i'] && r[j] == sorted[j'] && i' < j';
      var p, q :| 0 <= p < q < |t| && t[p] == sorted[i'] && t[q] == sorted[j'];
      assert s[p + 1] == r[i] && s[q + 1] == r[j];
    }
  }

  /** `s.slice(0, n)`. */
  function Take<T>(s: seq<T>, n: nat): (r: seq<T>)
    ensures |r| == if |s| <= n then |s| else n
    ensures r == s[..|r|]
  {
    if |s| <= n then s else s[..n]
  }

  /** The first `n` elements of a sorted permutation are the `n` best: each of
      them may precede every element left out. */
  lemma {:induction false} TakeOfSortedIsTop<T(!new)>(s: seq<T>, le: (T, T) -> bool, n: nat)
    requires TotalPreorder(le)
    ensures var p := SortBy(s, le);
            var top := Take(p, n);
            multiset(top) <= multiset(s)
            && forall x, y :: x in top && y in multiset(s) - multiset(top) ==> le(x, y)
  {
    var p := SortBy(s, le);
    SortBySorted(s, le);
    var top := Take(p, n);
    var k := |top|;
    assert p == top + p[k..];
    assert multiset(p) == multiset(top) + multiset(p[k..]);
    forall x, y | x in top && y in multiset(s) - multiset(top) ensures le(x, y) {
      var i :| 0 <= i < k && top[i] == x;
      assert y in multiset(p[k..]);
      var j :| 0 <= j < |p[k..]| && p[k..][j] == y;
      assert p[i] == x && p[k + j] == y;
    }
  }
}
