/** Python's `sorted(xs, key=...)` as the two DynamoDB queries use it: a
    stable sort that puts the highest-ranked elements first (the source sorts
    ascending on negated numbers, which is the same order), followed by the
    `[:n]` slice that keeps the best `n`. */
module StableSort {

  /** A sort key compared lexicographically: first `primary`, then `secondary`. */
  datatype Rank = Rank(primary: int, secondary: int)

  /** `a` ranks at or above `b`; a total preorder on ranks. */
  predicate RanksAtLeast(a: Rank, b: Rank) {
    a.primary > b.primary || (a.primary == b.primary && a.secondary >= b.secondary)
  }

  /** Every element ranks at or above every later element. */
  predicate Descending<T>(s: seq<T>, rank: T -> Rank) {
    forall i, j :: 0 <= i < j < |s| ==> RanksAtLeast(rank(s[i]), rank(s[j]))
  }

  /** The elements of `s` whose rank is exactly `k`, in their order in `s`. */
  function WithRank<T>(s: seq<T>, rank: T -> Rank, k: Rank): seq<T> {
    if s == [] then [] else (if rank(s[0]) == k then [s[0]] else []) + WithRank(s[1..], rank, k)
  }

  /** Inserts `x` in front of the first element it ranks at or above, so that
      `x` stays ahead of every element of equal rank. */
  function Insert<T>(x: T, s: seq<T>, rank: T -> Rank): (r: seq<T>)
    ensures multiset(r) == multiset(s) + multiset{x}
  {
    if s == [] then [x]
    else if RanksAtLeast(rank(x), rank(s[0])) then [x] + s
    else
      assert s == [s[0]] + s[1..];
      [s[0]] + Insert(x, s[1..], rank)
  }

  /** The stable descending sort of `s`. */
  function SortDescending<T>(s: seq<T>, rank: T -> Rank): (r: seq<T>)
    ensures multiset(r) == multiset(s)
    ensures |r| == |s|
  {
    if s == [] then []
    else
      assert s == [s[0]] + s[1..];
      Insert(s[0], SortDescending(s[1..], rank), rank)
  }

  /** The slice `s[:n]`: the first `n` elements, or all of them when fewer. */
  function Take<T>(s: seq<T>, n: nat): (r: seq<T>)
    ensures |r| == if |s| <= n then |s| else n
    ensures r == s[..|r|]
  {
    if |s| <= n then s else s[..n]
  }

  lemma {:induction false} InsertDescending<T>(x: T, s: seq<T>, rank: T -> Rank)
    requires Descending(s, rank)
    ensures Descending(Insert(x, s, rank), rank)
  {
    if s != [] && !RanksAtLeast(rank(x), rank(s[0])) {
      var rest := Insert(x, s[1..], rank);
      InsertDescending(x, s[1..], rank);
      forall j | 0 <= j < |rest|
        ensures RanksAtLeast(rank(s[0]), rank(rest[j]))
      {
        assert rest[j] in multiset(rest);
        assert rest[j] == x || rest[j] in multiset(s[1..]);
        if rest[j] != x {
          var m :| 0 <= m < |s[1..]| && s[1..][m] == rest[j];
          assert s[1 + m] == rest[j];
        }
      }
    }
  }

  /** The sort really sorts: its result is descending by rank. */
  lemma {:induction false} SortIsDescending<T>(s: seq<T>, rank: T -> Rank)
    ensures Descending(SortDescending(s, rank), rank)
  {
    if s != [] {
      SortIsDescending(s[1..], rank);
      InsertDescending(s[0], SortDescending(s[1..], rank), rank);
    }
  }

  lemma WithRankCons<T>(x: T, s: seq<T>, rank: T -> Rank, k: Rank)
    ensures WithRank([x] + s, rank, k) == (if rank(x) == k then [x] else []) + WithRank(s, rank, k)
  {
    assert ([x] + s)[1..] == s;
  }

  /** When `head` or `mid` is empty they commute: the step of the
      stability proof where `x` moves past the first element. */
  lemma SwapFront<T>(a: seq<T>, b: seq<T>, c: seq<T>, d: seq<T>, head: seq<T>, mid: seq<T>)
    requires head == [] || mid == []
    requires a == head + b && b == mid + c && d == head + c
    ensures a == mid + d
  {
    if head == [] {
      assert a == b && d == c;
    } else {
      assert b == c;
    }
  }

  lemma {:induction false} InsertStable<T>(x: T, s: seq<T>, rank: T -> Rank, k: Rank)
    requires Descending(s, rank)
    ensures WithRank(Insert(x, s, rank), rank, k) == (if rank(x) == k then [x] else []) + WithRank(s, rank, k)
  {
    if s == [] {
      WithRankCons(x, s, rank, k);
    } else if RanksAtLeast(rank(x), rank(s[0])) {
      WithRankCons(x, s, rank, k);
    } else {
      var head := if rank(s[0]) == k then [s[0]] else [];
      var mid := if rank(x) == k then [x] else [];
      // x and s[0] cannot both have rank k: equal ranks would put x first
      assert head == [] || mid == [];
      InsertStable(x, s[1..], rank, k);
      WithRankCons(s[0], Insert(x, s[1..], rank), rank, k);
      WithRankCons(s[0], s[1..], rank, k);
      assert s == [s[0]] + s[1..];
      SwapFront(WithRank(Insert(x, s, rank), rank, k), WithRank(Insert(x, s[1..], rank), rank, k),
                WithRank(s[1..], rank, k), WithRank(s, rank, k), head, mid);
    }
  }

  /** The sort is stable: elements of equal rank keep their input order. */
  lemma {:induction false} SortIsStable<T>(s: seq<T>, rank: T -> Rank, k: Rank)
    ensures WithRank(SortDescending(s, rank), rank, k) == WithRank(s, rank, k)
  {
    if s != [] {
      SortIsStable(s[1..], rank, k);
      SortIsDescending(s[1..], rank);
      InsertStable(s[0], SortDescending(s[1..], rank), rank, k);
      WithRankCons(s[0], s[1..], rank, k);
      assert s == [s[0]] + s[1..];
    }
  }

  /** The elements of one rank in a concatenation are those of the first
      part, then those of the second. */
  lemma {:induction false} WithRankAppend<T>(a: seq<T>, b: seq<T>, rank: T -> Rank, k: Rank)
    ensures WithRank(a + b, rank, k) == WithRank(a, rank, k) + WithRank(b, rank, k)
  {
    if a == [] {
      assert a + b == b;
    } else {
      assert (a + b)[0] == a[0] && (a + b)[1..] == a[1..] + b;
      WithRankAppend(a[1..], b, rank, k);
    }
  }

  /** Cutting a sequence to its first n elements keeps, of each rank, a
      prefix of the elements of that rank. */
  lemma TakeWithRank<T>(s: seq<T>, rank: T -> Rank, k: Rank, n: nat)
    ensures WithRank(Take(s, n), rank, k) <= WithRank(s, rank, k)
  {
    var top := Take(s, n);
    assert s == top + s[|top|..];
    WithRankAppend(top, s[|top|..], rank, k);
  }

  /** Keeping the first `n` of the sorted sequence keeps the `n` best
      elements: what it keeps comes from `s`, is descending, and every element
      of `s` it leaves out ranks at or below everything it keeps. */
  lemma TopOfSorted<T>(s: seq<T>, rank: T -> Rank, n: nat)
    ensures var top := Take(SortDescending(s, rank), n);
      && |top| == (if |s| <= n then |s| else n)
      && multiset(top) <= multiset(s)
      && Descending(top, rank)
      && forall x, y :: x in top && y in multiset(s) - multiset(top) ==> RanksAtLeast(rank(x), rank(y))
  {
    var sorted := SortDescending(s, rank);
    var top := Take(sorted, n);
    SortIsDescending(s, rank);
    var rest := sorted[|top|..];
    assert sorted == top + rest;
    assert multiset(s) - multiset(top) == multiset(rest);
    PrefixOutranksSuffix(sorted, rank, |top|);
  }

  /** In a descending sequence, everything before position `m` ranks at or
      above everything from `m` on. */
  lemma PrefixOutranksSuffix<T>(sorted: seq<T>, rank: T -> Rank, m: nat)
    requires Descending(sorted, rank) && m <= |sorted|
    ensures forall x, y :: x in sorted[..m] && y in multiset(sorted[m..]) ==> RanksAtLeast(rank(x), rank(y))
  {
    forall x, y | x in sorted[..m] && y in multiset(sorted[m..])
      ensures RanksAtLeast(rank(x), rank(y))
    {
      var i :| 0 <= i < m && sorted[..m][i] == x;
      assert y in sorted[m..];
      var j :| 0 <= j < |sorted| - m && sorted[m..][j] == y;
      assert sorted[i] == x && sorted[m + j] == y;
    }
  }

  /** An element of `s` that the first `n` leave out ranks at or below each
      element they keep. */
  lemma LeftOutOfTop<T>(s: seq<T>, rank: T -> Rank, n: nat, y: T)
    requires y in s && y !in Take(SortDescending(s, rank), n)
    ensures forall x :: x in Take(SortDescending(s, rank), n) ==> RanksAtLeast(rank(x), rank(y))
  {
    var top := Take(SortDescending(s, rank), n);
    assert y in multiset(s) - multiset(top);
    TopOfSorted(s, rank, n);
  }
}
