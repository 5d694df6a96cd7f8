/** What an SQL `SELECT … ORDER BY … LIMIT n` over one table returns: the
    rows of a table as a sequence (in row-id order, as SQLite scans them),
    filtering, a sort under a total preorder, and truncation to a limit. */
module Ordering {

  /** `leq` orders every pair and is transitive: what `ORDER BY` sorts under. */
  ghost predicate TotalPreorder<T(!new)>(leq: (T, T) -> bool) {
    && (forall a, b :: leq(a, b) || leq(b, a))
    && (forall a, b, c :: leq(a, b) && leq(b, c) ==> leq(a, c))
  }

  predicate SortedBy<T>(xs: seq<T>, leq: (T, T) -> bool) {
    forall i, j :: 0 <= i < j < |xs| ==> leq(xs[i], xs[j])
  }

  /** No element occurs twice: every row of a result is a different row. */
  ghost predicate NoDuplicates<T(!new)>(xs: seq<T>) {
    forall x :: multiset(xs)[x] <= 1
  }

  function Insert<T>(x: T, xs: seq<T>, leq: (T, T) -> bool): (r: seq<T>)
    ensures multiset(r) == multiset(xs) + multiset{x}
    ensures |r| == |xs| + 1
  {
    if xs == [] then [x]
    else if leq(x, xs[0]) then [x] + xs
    else
      assert xs == [xs[0]] + xs[1..];
      [xs[0]] + Insert(x, xs[1..], leq)
  }

  lemma {:induction false} InsertSorted<T(!new)>(x: T, xs: seq<T>, leq: (T, T) -> bool)
    requires TotalPreorder(leq)
    requires SortedBy(xs, leq)
    ensures SortedBy(Insert(x, xs, leq), leq)
  {
    if xs != [] && !leq(x, xs[0]) {
      InsertSorted(x, xs[1..], leq);
      var r := Insert(x, xs, leq);
      var tail := Insert(x, xs[1..], leq);
      assert r == [xs[0]] + tail;
      assert leq(xs[0], x);
      forall k | 0 <= k < |tail|
        ensures leq(xs[0], tail[k])
      {
        assert tail[k] in multiset(xs[1..]) + multiset{x};
        if tail[k] != x {
          var m :| 0 <= m < |xs[1..]| && xs[1..][m] == tail[k];
          assert xs[1 + m] == tail[k];
        }
      }
    }
  }

  /** Insertion sort: a sorted permutation of `xs`. */
  function Sort<T>(xs: seq<T>, leq: (T, T) -> bool): (r: seq<T>)
    ensures multiset(r) == multiset(xs)
    ensures |r| == |xs|
  {
    if xs == [] then []
    else
      assert xs == [xs[0]] + xs[1..];
      Insert(xs[0], Sort(xs[1..], leq), leq)
  }

  lemma {:induction false} SortSorted<T(!new)>(xs: seq<T>, leq: (T, T) -> bool)
    requires TotalPreorder(leq)
    ensures SortedBy(Sort(xs, leq), leq)
  {
    if xs != [] {
      SortSorted(xs[1..], leq);
      InsertSorted(xs[0], Sort(xs[1..], leq), leq);
    }
  }

  /** `ORDER BY` under `leq`: the same rows, sorted. */
  function OrderBy<T(!new)>(xs: seq<T>, leq: (T, T) -> bool): (r: seq<T>)
    requires TotalPreorder(leq)
    ensures SortedBy(r, leq)
    ensures multiset(r) == multiset(xs)
    ensures forall x :: x in r <==> x in xs
  {
    SortSorted(xs, leq);
    var r := Sort(xs, leq);
    assert forall x :: x in r <==> x in multiset(xs);
    r
  }

  /** Every row satisfying `p`, in the order of `xs`. */
  function Filter<T(!new)>(xs: seq<T>, p: T -> bool): (r: seq<T>)
    ensures forall x :: x in r <==> x in xs && p(x)
    ensures forall x :: multiset(r)[x] == if p(x) then multiset(xs)[x] else 0
  {
    if xs == [] then []
    else
      assert xs == [xs[0]] + xs[1..];
      (if p(xs[0]) then [xs[0]] else []) + Filter(xs[1..], p)
  }

  /** Filtering repeats nothing the unfiltered rows did not repeat. */
  lemma FilterNoDuplicates<T(!new)>(xs: seq<T>, p: T -> bool)
    requires NoDuplicates(xs)
    ensures NoDuplicates(Filter(xs, p))
  {
    var r := Filter(xs, p);
    forall x
      ensures multiset(r)[x] <= 1
    {
    }
  }

  /** `LIMIT n`. */
  function Take<T>(xs: seq<T>, n: nat): (r: seq<T>)
    ensures |r| <= n && |r| <= |xs|
    ensures |xs| <= n ==> r == xs
    ensures forall i :: 0 <= i < |r| ==> r[i] == xs[i]
    ensures |r| == if |xs| <= n then |xs| else n
    ensures forall x :: x in r ==> x in xs
    ensures multiset(r) <= multiset(xs)
  {
    if |xs| <= n then xs
    else
      assert xs == xs[..n] + xs[n..];
      xs[..n]
  }

  /** What `LIMIT n` leaves out of a sorted sequence ranks after everything
      it keeps, and is only left out when the limit is reached. */
  lemma TakeKeepsFirst<T>(xs: seq<T>, n: nat, leq: (T, T) -> bool, x: T)
    requires SortedBy(xs, leq)
    requires x in xs && x !in Take(xs, n)
    ensures |Take(xs, n)| == n
    ensures forall i :: 0 <= i < n ==> leq(Take(xs, n)[i], x)
  {
    var j :| 0 <= j < |xs| && xs[j] == x;
    assert j >= n;
  }

  predicate IsLeast(m: nat, s: set<nat>) {
    m in s && forall y :: y in s ==> m <= y
  }

  lemma {:induction false} LeastExists(s: set<nat>)
    requires s != {}
    ensures exists m :: IsLeast(m, s)
  {
    var x :| x in s;
    var rest := s - {x};
    var least := x;
    if rest != {} {
      LeastExists(rest);
      var m :| IsLeast(m, rest);
      if m < x {
        least := m;
      }
    }
    assert least in s && least <= x;
    assert forall y :: y in rest ==> least <= y;
    forall y | y in s
      ensures least <= y
    {
      if y != x {
        assert y in rest;
      }
    }
    assert IsLeast(least, s);
  }

  /** The members of `s` in increasing order. */
  function Ascending(s: set<nat>): (r: seq<nat>)
    ensures forall x :: x in r <==> x in s
    ensures forall i, j :: 0 <= i < j < |r| ==> r[i] < r[j]
    decreases s
  {
    if s == {} then []
    else
      LeastExists(s);
      var m :| IsLeast(m, s);
      [m] + Ascending(s - {m})
  }

  /** The rows of a table, as `(id, record)` pairs in id order. */
  function Rows<T(!new)>(table: map<nat, T>): (r: seq<(nat, T)>)
    ensures forall row :: row in r <==> row.0 in table && table[row.0] == row.1
    ensures forall i, j :: 0 <= i < j < |r| ==> r[i].0 < r[j].0
  {
    var ids := Ascending(table.Keys);
    var r := seq(|ids|, i requires 0 <= i < |ids| => (ids[i], table[ids[i]]));
    forall row: (nat, T) | row.0 in table && table[row.0] == row.1
      ensures row in r
    {
      var i :| 0 <= i < |ids| && ids[i] == row.0;
      assert r[i] == row;
    }
    r
  }

  /** Rows whose ids strictly increase are all different. */
  lemma {:induction false} IncreasingKeysNoDuplicates<T(!new)>(r: seq<(nat, T)>)
    requires forall i, j :: 0 <= i < j < |r| ==> r[i].0 < r[j].0
    ensures NoDuplicates(r)
  {
    if r != [] {
      var tail := r[1..];
      IncreasingKeysNoDuplicates(tail);
      assert r == [r[0]] + tail;
      assert r[0] !in tail by {
        forall k | 0 <= k < |tail|
          ensures tail[k] != r[0]
        {
          assert tail[k] == r[k + 1];
        }
      }
      forall x
        ensures multiset(r)[x] <= 1
      {
        assert multiset(r)[x] == multiset([r[0]])[x] + multiset(tail)[x];
      }
    }
  }
}
