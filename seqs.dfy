/** Sequence operations behind the frame operations: boolean-mask selection,
    sorting by a key with NA keys last, and `head(n)`. */
module Seqs {
  import opened Frame

  /** `s[mask]` for the mask `p`: the elements satisfying `p`, in their original order. */
  function Filter<T(!new)>(s: seq<T>, p: T -> bool): (r: seq<T>)
    ensures |r| <= |s|
    ensures forall x :: x in r <==> x in s && p(x)
    ensures forall i :: 0 <= i < |r| ==> p(r[i])
  {
    if s == [] then []
    else
      (if p(s[0]) then [s[0]] else []) + Filter(s[1..], p)
  }

  /** Selection keeps relative order: it distributes over concatenation. */
  lemma {:induction false} FilterAppend<T(!new)>(a: seq<T>, b: seq<T>, p: T -> bool)
    ensures Filter(a + b, p) == Filter(a, p) + Filter(b, p)
  {
    if a == [] {
      assert a + b == b;
    } else {
      assert (a + b)[0] == a[0];
      assert (a + b)[1..] == a[1..] + b;
      FilterAppend(a[1..], b, p);
    }
  }

  /** `sub` is `s` with some elements left out and the rest in their original order. */
  ghost predicate IsSubseq<T>(sub: seq<T>, s: seq<T>)
    decreases |s|
  {
    if sub == [] then true
    else if s == [] then false
    else (sub[0] == s[0] && IsSubseq(sub[1..], s[1..])) || IsSubseq(sub, s[1..])
  }

  /** Selection keeps the selected elements in their original relative order. */
  lemma {:induction false} FilterIsSubseq<T(!new)>(s: seq<T>, p: T -> bool)
    ensures IsSubseq(Filter(s, p), s)
  {
    if s != [] {
      FilterIsSubseq(s[1..], p);
      var r := Filter(s, p);
      if p(s[0]) {
        assert r[0] == s[0] && r[1..] == Filter(s[1..], p);
      } else {
        assert r == Filter(s[1..], p);
      }
    }
  }

  /** `s[~mask]` for the mask `p`: the elements failing `p`, in their original order. */
  function Reject<T(!new)>(s: seq<T>, p: T -> bool): (r: seq<T>)
    ensures forall x :: x in r <==> x in s && !p(x)
  {
    if s == [] then []
    else
      (if p(s[0]) then [] else [s[0]]) + Reject(s[1..], p)
  }

  lemma {:induction false} RejectIsSubseq<T(!new)>(s: seq<T>, p: T -> bool)
    ensures IsSubseq(Reject(s, p), s)
  {
    if s != [] {
      RejectIsSubseq(s[1..], p);
      var r := Reject(s, p);
      if !p(s[0]) {
        assert r[0] == s[0] && r[1..] == Reject(s[1..], p);
      } else {
        assert r == Reject(s[1..], p);
      }
    }
  }

  /** A mask and its negation split a sequence into two parts that together hold every element once. */
  lemma {:induction false} FilterComplement<T(!new)>(s: seq<T>, p: T -> bool)
    ensures multiset(Filter(s, p)) + multiset(Reject(s, p)) == multiset(s)
  {
    if s != [] {
      FilterComplement(s[1..], p);
      ComplementStep(s, p(s[0]), Filter(s[1..], p), Reject(s[1..], p), Filter(s, p), Reject(s, p));
    }
  }

  lemma ComplementStep<T>(s: seq<T>, first: bool, kept: seq<T>, dropped: seq<T>, kept': seq<T>, dropped': seq<T>)
    requires s != []
    requires multiset(kept) + multiset(dropped) == multiset(s[1..])
    requires kept' == (if first then [s[0]] else []) + kept
    requires dropped' == (if first then [] else [s[0]]) + dropped
    ensures multiset(kept') + multiset(dropped') == multiset(s)
  {
    assert s == [s[0]] + s[1..];
  }

  /** `sort_values` places NA keys last in either direction. */
  predicate Precedes(a: Option<real>, b: Option<real>, descending: bool) {
    match a
    case None => b.None?
    case Some(x) => b.None? || (if descending then x >= b.value else x <= b.value)
  }

  predicate SortedBy<T>(s: seq<T>, key: T -> Option<real>, descending: bool) {
    forall i, j :: 0 <= i < j < |s| ==> Precedes(key(s[i]), key(s[j]), descending)
  }

  function Insert<T>(x: T, s: seq<T>, key: T -> Option<real>, descending: bool): seq<T> {
    if s == [] || Precedes(key(x), key(s[0]), descending) then [x] + s
    else [s[0]] + Insert(x, s[1..], key, descending)
  }

  lemma PrecedesTransitive(a: Option<real>, b: Option<real>, c: Option<real>, descending: bool)
    requires Precedes(a, b, descending) && Precedes(b, c, descending)
    ensures Precedes(a, c, descending)
  {
  }

  /** Inserting adds exactly the one element. */
  lemma {:induction false} InsertPermutes<T>(x: T, s: seq<T>, key: T -> Option<real>, descending: bool)
    ensures multiset(Insert(x, s, key, descending)) == multiset(s) + multiset{x}
  {
    if !(s == [] || Precedes(key(x), key(s[0]), descending)) {
      InsertPermutes(x, s[1..], key, descending);
      assert s == [s[0]] + s[1..];
    }
  }

  /** A sorted sequence stays sorted under a new head that precedes all of it. */
  lemma SortedCons<T>(h: T, s: seq<T>, key: T -> Option<real>, descending: bool)
    requires SortedBy(s, key, descending)
    requires forall j :: 0 <= j < |s| ==> Precedes(key(h), key(s[j]), descending)
    ensures SortedBy([h] + s, key, descending)
  {
    var r := [h] + s;
    forall i, j | 0 <= i < j < |r| ensures Precedes(key(r[i]), key(r[j]), descending) {
      if i > 0 {
        assert r[i] == s[i - 1] && r[j] == s[j - 1];
      }
    }
  }

  /** Inserting into a sorted sequence keeps it sorted. */
  lemma {:induction false} InsertSorted<T(!new)>(x: T, s: seq<T>, key: T -> Option<real>, descending: bool)
    requires SortedBy(s, key, descending)
    ensures SortedBy(Insert(x, s, key, descending), key, descending)
  {
    if s == [] || Precedes(key(x), key(s[0]), descending) {
      forall j | 0 <= j < |s| ensures Precedes(key(x), key(s[j]), descending) {
        if j > 0 {
          PrecedesTransitive(key(x), key(s[0]), key(s[j]), descending);
        }
      }
      SortedCons(x, s, key, descending);
    } else {
      var rest := Insert(x, s[1..], key, descending);
      InsertSorted(x, s[1..], key, descending);
      InsertPermutes(x, s[1..], key, descending);
      forall j | 0 <= j < |rest| ensures Precedes(key(s[0]), key(rest[j]), descending) {
        assert rest[j] in multiset(rest);
        if rest[j] != x {
          assert rest[j] in multiset(s[1..]);
          var k :| 0 <= k < |s[1..]| && s[1..][k] == rest[j];
          assert s[k + 1] == rest[j];
        }
      }
      assert SortedBy(s[1..], key, descending) by {
        forall i, j | 0 <= i < j < |s[1..]| ensures Precedes(key(s[1..][i]), key(s[1..][j]), descending) {
          assert s[1..][i] == s[i + 1] && s[1..][j] == s[j + 1];
        }
      }
      SortedCons(s[0], rest, key, descending);
    }
  }

  /** `sort_values(by=key, ascending=!descending)`: the model sorts by insertion; callers
      rely only on the result being sorted and a permutation of the input. */
  function SortBy<T(!new)>(s: seq<T>, key: T -> Option<real>, descending: bool): (r: seq<T>)
    ensures SortedBy(r, key, descending)
    ensures multiset(r) == multiset(s)
  {
    if s == [] then []
    else
      var rest := SortBy(s[1..], key, descending);
      InsertSorted(s[0], rest, key, descending);
      InsertPermutes(s[0], rest, key, descending);
      assert s == [s[0]] + s[1..];
      Insert(s[0], rest, key, descending)
  }

  /** `head(n)`. */
  function Take<T>(s: seq<T>, n: nat): (r: seq<T>)
    ensures |r| == if |s| < n then |s| else n
    ensures r == s[..|r|]
  {
    if |s| < n then s else s[..n]
  }

  /** An element a sorted sequence's first `n` leave out ranks no higher than the last one kept. */
  lemma TakeOfSortedIsTop<T>(s: seq<T>, n: nat, key: T -> Option<real>, descending: bool, x: T)
    requires SortedBy(s, key, descending)
    requires 0 < n && x in s && x !in Take(s, n)
    ensures |Take(s, n)| == n
    ensures Precedes(key(Take(s, n)[n - 1]), key(x), descending)
  {
    var j :| 0 <= j < |s| && s[j] == x;
    assert n <= j;
  }

  /** `sort_values(...).head(n)`: at most n elements of `s`, sorted, each taken from `s` no more
      often than it occurs there, and every element left out ranks no higher than the last kept. */
  lemma TopOf<T(!new)>(s: seq<T>, n: nat, key: T -> Option<real>, descending: bool)
    ensures var r := Take(SortBy(s, key, descending), n);
      && |r| == (if |s| < n then |s| else n)
      && SortedBy(r, key, descending)
      && multiset(r) <= multiset(s)
      && (forall x :: x in s && x !in r ==> |r| == n && (n > 0 ==> Precedes(key(r[n - 1]), key(x), descending)))
  {
    var sorted := SortBy(s, key, descending);
    var r := Take(sorted, n);
    SameLength(sorted, s);
    PrefixIncluded(sorted, |r|);
    forall x | x in s && x !in r ensures |r| == n && (n > 0 ==> Precedes(key(r[n - 1]), key(x), descending)) {
      assert x in multiset(sorted);
      if n > 0 {
        TakeOfSortedIsTop(sorted, n, key, descending, x);
      }
    }
  }

  lemma SameLength<T>(a: seq<T>, b: seq<T>)
    requires multiset(a) == multiset(b)
    ensures |a| == |b|
  {
    assert |multiset(a)| == |multiset(b)|;
  }

  lemma PrefixIncluded<T>(s: seq<T>, k: nat)
    requires k <= |s|
    ensures multiset(s[..k]) <= multiset(s)
  {
    assert s == s[..k] + s[k..];
  }
}
