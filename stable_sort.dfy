/** The stable sort that `Array.prototype.sort` performs (ECMA-262, 2019 edition
    onward) with a numeric comparator `(a, b) => rank(a) - rank(b)`.
    A descending comparator `(a, b) => key(b) - key(a)` is the rank `-key`. */
module StableSort {
  import opened Seqs

  /** Places x before the first element whose rank is at least x's. */
  function Insert<T>(x: T, t: seq<T>, rank: T -> int): seq<T>
  {
    if t == [] then [x]
    else if rank(x) <= rank(t[0]) then [x] + t
    else [t[0]] + Insert(x, t[1..], rank)
  }

  /** Insertion sort: a reference definition of the stable sort by rank. */
  function SortByRank<T>(s: seq<T>, rank: T -> int): seq<T>
  {
    if s == [] then [] else Insert(s[0], SortByRank(s[1..], rank), rank)
  }

  predicate SortedByRank<T>(s: seq<T>, rank: T -> int)
  {
    forall i, j :: 0 <= i < j < |s| ==> rank(s[i]) <= rank(s[j])
  }

  /** The elements of s whose rank is k, in their order in s. */
  function WithRank<T(==)>(s: seq<T>, rank: T -> int, k: int): seq<T>
  {
    Keep(s, y => rank(y) == k)
  }

  /** Stability: for every rank value, the elements of that rank keep their relative order. */
  ghost predicate Stable<T>(s: seq<T>, t: seq<T>, rank: T -> int)
  {
    forall k :: WithRank(t, rank, k) == WithRank(s, rank, k)
  }

  lemma {:induction false} InsertMultiset<T>(x: T, t: seq<T>, rank: T -> int)
    ensures multiset(Insert(x, t, rank)) == multiset(t) + multiset{x}
  {
    if t != [] && rank(x) > rank(t[0]) {
      InsertMultiset(x, t[1..], rank);
      assert t == [t[0]] + t[1..];
    }
  }

  /** A sequence with a head no larger than anything after it, and a sorted tail, is sorted. */
  lemma SortedCons<T>(h: T, rest: seq<T>, rank: T -> int)
    requires SortedByRank(rest, rank)
    requires forall i :: 0 <= i < |rest| ==> rank(h) <= rank(rest[i])
    ensures SortedByRank([h] + rest, rank)
  {
    var r := [h] + rest;
    forall i, j | 0 <= i < j < |r| ensures rank(r[i]) <= rank(r[j]) {
      assert r[j] == rest[j - 1];
      if i > 0 {
        assert r[i] == rest[i - 1];
      }
    }
  }

  /** A lower bound on the ranks of x and of t bounds every rank after the insertion. */
  lemma {:induction false} InsertLowerBound<T>(x: T, t: seq<T>, rank: T -> int, b: int)
    requires b <= rank(x)
    requires forall i :: 0 <= i < |t| ==> b <= rank(t[i])
    ensures forall i :: 0 <= i < |Insert(x, t, rank)| ==> b <= rank(Insert(x, t, rank)[i])
  {
    if t != [] && rank(x) > rank(t[0]) {
      InsertLowerBound(x, t[1..], rank, b);
      assert Insert(x, t, rank) == [t[0]] + Insert(x, t[1..], rank);
    } else {
      assert Insert(x, t, rank) == [x] + t;
    }
  }

  lemma {:induction false} InsertSorted<T>(x: T, t: seq<T>, rank: T -> int)
    requires SortedByRank(t, rank)
    ensures SortedByRank(Insert(x, t, rank), rank)
  {
    if t == [] {
    } else if rank(x) <= rank(t[0]) {
      SortedCons(x, t, rank);
    } else {
      var tail := t[1..];
      assert SortedByRank(tail, rank) by {
        forall i, j | 0 <= i < j < |tail| ensures rank(tail[i]) <= rank(tail[j]) {
          assert tail[i] == t[i + 1] && tail[j] == t[j + 1];
        }
      }
      InsertSorted(x, tail, rank);
      assert forall i :: 0 <= i < |tail| ==> tail[i] == t[i + 1];
      InsertLowerBound(x, tail, rank, rank(t[0]));
      SortedCons(t[0], Insert(x, tail, rank), rank);
    }
  }

  /** Inserting x puts it before every element of t of the same rank: the rank-k
      elements afterwards are x (if its rank is k) followed by t's rank-k elements. */
  lemma {:induction false} InsertWithRank<T>(x: T, t: seq<T>, rank: T -> int, k: int)
    ensures WithRank(Insert(x, t, rank), rank, k) == WithRank([x], rank, k) + WithRank(t, rank, k)
  {
    var p := y => rank(y) == k;
    if t == [] {
      assert Insert(x, t, rank) == [x] + t;
      KeepAppend([x], t, p);
    } else if rank(x) <= rank(t[0]) {
      assert Insert(x, t, rank) == [x] + t;
      KeepAppend([x], t, p);
    } else {
      InsertWithRank(x, t[1..], rank, k);
      assert Insert(x, t, rank) == [t[0]] + Insert(x, t[1..], rank);
      KeepAppend([t[0]], Insert(x, t[1..], rank), p);
      assert t == [t[0]] + t[1..];
      KeepAppend([t[0]], t[1..], p);
      if rank(x) == k {
        assert Keep([t[0]], p) == [];
      } else {
        assert Keep([x], p) == [];
      }
    }
  }

  /** The sorted sequence is a permutation of the input. */
  lemma {:induction false} SortPermutation<T>(s: seq<T>, rank: T -> int)
    ensures multiset(SortByRank(s, rank)) == multiset(s)
  {
    if s != [] {
      SortPermutation(s[1..], rank);
      InsertMultiset(s[0], SortByRank(s[1..], rank), rank);
      assert s == [s[0]] + s[1..];
    }
  }

  /** The sorted sequence is ordered by rank. */
  lemma {:induction false} SortSorted<T>(s: seq<T>, rank: T -> int)
    ensures SortedByRank(SortByRank(s, rank), rank)
  {
    if s != [] {
      SortSorted(s[1..], rank);
      InsertSorted(s[0], SortByRank(s[1..], rank), rank);
    }
  }

  /** The sort is stable. */
  lemma {:induction false} SortStable<T>(s: seq<T>, rank: T -> int)
    ensures Stable(s, SortByRank(s, rank), rank)
  {
    forall k ensures WithRank(SortByRank(s, rank), rank, k) == WithRank(s, rank, k) {
      SortStableAt(s, rank, k);
    }
  }

  lemma {:induction false} SortStableAt<T>(s: seq<T>, rank: T -> int, k: int)
    ensures WithRank(SortByRank(s, rank), rank, k) == WithRank(s, rank, k)
  {
    if s != [] {
      SortStableAt(s[1..], rank, k);
      InsertWithRank(s[0], SortByRank(s[1..], rank), rank, k);
      assert s == [s[0]] + s[1..];
      KeepAppend([s[0]], s[1..], y => rank(y) == k);
    }
  }

  /** Ordering by a rank that is the same for every element leaves the input as it is,
      which is why a sort by such a key is the identity. */
  lemma {:induction false} SortConstantRank<T>(s: seq<T>, rank: T -> int, c: int)
    requires forall i :: 0 <= i < |s| ==> rank(s[i]) == c
    ensures SortByRank(s, rank) == s
  {
    if s != [] {
      SortConstantRank(s[1..], rank, c);
      assert SortByRank(s[1..], rank) == s[1..];
      if |s| > 1 {
        assert rank(s[1..][0]) == c;
      }
    }
  }
}
