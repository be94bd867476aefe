/** Sequence operations the components build on: JavaScript's `Array.prototype.filter`,
    counting with a predicate, and the descending sort that `ORDER BY … DESC` performs. */
module Seqs {

  /** `s.filter(p)`: the elements of `s` that satisfy `p`, in their original order. */
  function Filter<T(!new)>(s: seq<T>, p: T -> bool): (r: seq<T>)
    ensures |r| <= |s|
    ensures forall i :: 0 <= i < |r| ==> p(r[i])
    ensures forall x :: x in r <==> x in s && p(x)
    ensures forall x :: multiset(r)[x] == if p(x) then multiset(s)[x] else 0
  {
    if s == [] then []
    else
      var rest := Filter(s[1..], p);
      assert s == [s[0]] + s[1..];
      if p(s[0]) then [s[0]] + rest else rest
  }

  /** `r` can be obtained from `s` by deleting elements, without reordering. */
  predicate IsSubsequence<T(==)>(r: seq<T>, s: seq<T>)
  {
    if r == [] then true
    else if s == [] then false
    else if r[0] == s[0] then IsSubsequence(r[1..], s[1..])
    else IsSubsequence(r, s[1..])
  }

  lemma {:induction false} SubsequenceOfTail<T>(r: seq<T>, x: T, s: seq<T>)
    requires IsSubsequence(r, s)
    ensures IsSubsequence(r, [x] + s)
    decreases |s|, 1
  {
    if r == [] {
    } else {
      assert ([x] + s)[1..] == s;
      if r[0] == x {
        SubsequenceAfterDrop(r, s);
      }
    }
  }

  lemma {:induction false} SubsequenceAfterDrop<T>(r: seq<T>, s: seq<T>)
    requires r != [] && IsSubsequence(r, s)
    ensures IsSubsequence(r[1..], s)
    decreases |s|, 0
  {
    if s == [] {
    } else if r[0] == s[0] {
      SubsequenceOfTail(r[1..], s[0], s[1..]);
      assert [s[0]] + s[1..] == s;
    } else {
      SubsequenceAfterDrop(r, s[1..]);
      SubsequenceOfTail(r[1..], s[0], s[1..]);
      assert [s[0]] + s[1..] == s;
    }
  }

  /** Filtering keeps the relative order of the survivors. */
  lemma {:induction false} FilterIsSubsequence<T(!new)>(s: seq<T>, p: T -> bool)
    ensures IsSubsequence(Filter(s, p), s)
  {
    if s != [] {
      FilterIsSubsequence(s[1..], p);
      if !p(s[0]) {
        SubsequenceOfTail(Filter(s[1..], p), s[0], s[1..]);
        assert [s[0]] + s[1..] == s;
      }
    }
  }

  /** Filtering distributes over concatenation. */
  lemma {:induction false} FilterAppend<T(!new)>(a: seq<T>, b: seq<T>, p: T -> bool)
    ensures Filter(a + b, p) == Filter(a, p) + Filter(b, p)
  {
    if a == [] {
      assert a + b == b;
    } else {
      assert (a + b)[0] == a[0];
      assert (a + b)[1..] == a[1..] + b;
      FilterAppend(a[1..], b, p);
    }
  }

  /** Every element satisfies `p` exactly when filtering removes nothing. */
  lemma {:induction false} FilterKeepsAll<T(!new)>(s: seq<T>, p: T -> bool)
    ensures (forall i :: 0 <= i < |s| ==> p(s[i])) <==> Filter(s, p) == s
  {
    if forall i :: 0 <= i < |s| ==> p(s[i]) {
      FilterAll(s, p);
    }
  }

  lemma {:induction false} FilterAll<T(!new)>(s: seq<T>, p: T -> bool)
    requires forall i :: 0 <= i < |s| ==> p(s[i])
    ensures Filter(s, p) == s
  {
    if s != [] {
      var t := s[1..];
      assert forall i :: 0 <= i < |t| ==> t[i] == s[i + 1];
      FilterAll(t, p);
      assert s == [s[0]] + t;
    }
  }

  /** `s.filter(p).length`. */
  function Count<T(!new)>(s: seq<T>, p: T -> bool): nat
  {
    |Filter(s, p)|
  }

  /** Counting a non-empty sequence: its head, then its tail. */
  lemma CountCons<T(!new)>(s: seq<T>, p: T -> bool)
    requires s != []
    ensures Count(s, p) == (if p(s[0]) then 1 else 0) + Count(s[1..], p)
  {
  }

  /** The elements that satisfy `p` and those that satisfy its negation `q` together make up `s`. */
  lemma {:induction false} CountPartition<T(!new)>(s: seq<T>, p: T -> bool, q: T -> bool)
    requires forall x :: q(x) <==> !p(x)
    ensures Count(s, p) + Count(s, q) == |s|
  {
    if s != [] {
      CountPartition(s[1..], p, q);
      CountCons(s, p);
      CountCons(s, q);
    }
  }

  /** Counting is monotone in the predicate. */
  lemma {:induction false} CountMonotone<T(!new)>(s: seq<T>, p: T -> bool, q: T -> bool)
    requires forall x :: p(x) ==> q(x)
    ensures Count(s, p) <= Count(s, q)
  {
    if s != [] {
      CountMonotone(s[1..], p, q);
      CountCons(s, p);
      CountCons(s, q);
    }
  }

  /** `s` is ordered by `key`, largest first (the order `ORDER BY key DESC` produces). */
  predicate SortedDesc<T>(s: seq<T>, key: T -> int)
  {
    forall i, j :: 0 <= i < j < |s| ==> key(s[i]) >= key(s[j])
  }

  /** The first position of a descending `s` at which `x` can be inserted. */
  function InsertPos<T>(x: T, s: seq<T>, key: T -> int): (p: nat)
    ensures p <= |s|
    ensures forall i :: 0 <= i < p ==> key(s[i]) > key(x)
    ensures p < |s| ==> key(s[p]) <= key(x)
  {
    if s == [] || key(s[0]) <= key(x) then 0 else 1 + InsertPos(x, s[1..], key)
  }

  /** Inserts `x` into a descending sequence and keeps it descending. */
  function InsertDesc<T>(x: T, s: seq<T>, key: T -> int): (r: seq<T>)
    ensures |r| == |s| + 1
    ensures multiset(r) == multiset(s) + multiset{x}
    ensures SortedDesc(s, key) ==> SortedDesc(r, key)
    ensures r == s[..InsertPos(x, s, key)] + [x] + s[InsertPos(x, s, key)..]
  {
    var p := InsertPos(x, s, key);
    assert s == s[..p] + s[p..];
    InsertAtPosSorted(x, s, key, p);
    s[..p] + [x] + s[p..]
  }

  lemma InsertAtPosSorted<T>(x: T, s: seq<T>, key: T -> int, p: nat)
    requires p == InsertPos(x, s, key)
    ensures SortedDesc(s, key) ==> SortedDesc(s[..p] + [x] + s[p..], key)
  {
    var r := s[..p] + [x] + s[p..];
    if SortedDesc(s, key) {
      forall i, j | 0 <= i < j < |r| ensures key(r[i]) >= key(r[j]) {
        if j < p {
        } else if j == p {
          assert r[j] == x && r[i] == s[i];
        } else if i < p {
          assert r[i] == s[i] && r[j] == s[j - 1];
          assert key(s[i]) > key(x) >= key(s[p]) >= key(s[j - 1]);
        } else if i == p {
          assert r[j] == s[j - 1];
          assert key(x) >= key(s[p]) >= key(s[j - 1]);
        } else {
          assert r[i] == s[i - 1] && r[j] == s[j - 1];
        }
      }
    }
  }

  /** A descending-by-`key` permutation of `s`. */
  function SortDesc<T>(s: seq<T>, key: T -> int): (r: seq<T>)
    ensures multiset(r) == multiset(s)
    ensures SortedDesc(r, key)
  {
    if s == [] then []
    else
      assert s == [s[0]] + s[1..];
      InsertDesc(s[0], SortDesc(s[1..], key), key)
  }
}
