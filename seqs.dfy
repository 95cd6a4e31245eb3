/** Sequence operations with the meaning of the JavaScript array methods the mock
    services use: `filter`, `slice` (negative indices count from the end) and the
    stable `sort` with a comparator. */
module Seqs {
  import opened Common

  /** `xs.filter(p)`. */
  function Filter<T>(xs: seq<T>, p: T -> bool): (r: seq<T>)
    ensures |r| <= |xs|
    ensures forall x :: x in r ==> x in xs && p(x)
    decreases |xs|
  {
    if xs == [] then []
    else if p(xs[0]) then [xs[0]] + Filter(xs[1..], p)
    else Filter(xs[1..], p)
  }

  /** `xs.findIndex(p)`: the first index whose element passes, or None for -1. */
  function FindIndex<T>(xs: seq<T>, p: T -> bool): (r: Option<nat>)
    ensures r.Some? ==> r.value < |xs| && p(xs[r.value])
    ensures r.Some? ==> forall j :: 0 <= j < r.value ==> !p(xs[j])
    ensures r.None? <==> forall j :: 0 <= j < |xs| ==> !p(xs[j])
    decreases |xs|
  {
    if xs == [] then None
    else if p(xs[0]) then Some(0)
    else match FindIndex(xs[1..], p)
      case None => None
      case Some(k) => Some(k + 1)
  }

  /** Filter keeps every element that passes. */
  lemma {:induction false} FilterKeeps<T>(xs: seq<T>, p: T -> bool, x: T)
    requires x in xs && p(x)
    ensures x in Filter(xs, p)
    decreases |xs|
  {
    if xs[0] != x {
      FilterKeeps(xs[1..], p, x);
    }
  }

  /** Filtering twice is filtering once by the conjunction. */
  lemma {:induction false} FilterTwice<T>(xs: seq<T>, p: T -> bool, q: T -> bool, pq: T -> bool)
    requires forall x :: pq(x) == (p(x) && q(x))
    ensures Filter(Filter(xs, p), q) == Filter(xs, pq)
    decreases |xs|
  {
    if xs != [] {
      FilterTwice(xs[1..], p, q, pq);
      if p(xs[0]) {
        assert Filter(xs, p) == [xs[0]] + Filter(xs[1..], p);
        assert Filter(xs, p)[1..] == Filter(xs[1..], p);
      }
    }
  }

  /** Filters that agree on every element give the same result. */
  lemma {:induction false} FilterExt<T>(xs: seq<T>, p: T -> bool, q: T -> bool)
    requires forall x :: p(x) == q(x)
    ensures Filter(xs, p) == Filter(xs, q)
    decreases |xs|
  {
    if xs != [] {
      FilterExt(xs[1..], p, q);
    }
  }

  /** One step of a chain of optional filters: applying `p` when `apply` holds to
      what passed `sofar` leaves what passes `next`. */
  lemma FilterStep<T>(xs: seq<T>, sofar: T -> bool, apply: bool, p: T -> bool, next: T -> bool)
    requires forall x :: next(x) == (sofar(x) && (!apply || p(x)))
    ensures apply ==> Filter(Filter(xs, sofar), p) == Filter(xs, next)
    ensures !apply ==> Filter(xs, sofar) == Filter(xs, next)
  {
    if apply {
      FilterTwice(xs, sofar, p, next);
    } else {
      FilterExt(xs, sofar, next);
    }
  }

  /** A filter that every element passes keeps the whole sequence. */
  lemma {:induction false} FilterAll<T>(xs: seq<T>, p: T -> bool)
    requires forall x :: x in xs ==> p(x)
    ensures Filter(xs, p) == xs
    decreases |xs|
  {
    if xs != [] {
      FilterAll(xs[1..], p);
    }
  }

  /** The filtered sequence is a sub-multiset of the input. */
  lemma {:induction false} FilterSubMultiset<T>(xs: seq<T>, p: T -> bool)
    ensures multiset(Filter(xs, p)) <= multiset(xs)
    decreases |xs|
  {
    if xs != [] {
      FilterSubMultiset(xs[1..], p);
      assert xs == [xs[0]] + xs[1..];
    }
  }

  /** Filter keeps every copy of an element that passes and none of one that
      fails: it counts exactly the matches. */
  lemma {:induction false} FilterCount<T>(xs: seq<T>, p: T -> bool, x: T)
    ensures multiset(Filter(xs, p))[x] == if p(x) then multiset(xs)[x] else 0
    decreases |xs|
  {
    if xs != [] {
      FilterCount(xs[1..], p, x);
      assert xs == [xs[0]] + xs[1..];
      if p(xs[0]) {
        assert multiset(Filter(xs, p)) == multiset([xs[0]]) + multiset(Filter(xs[1..], p));
      }
    }
  }

  /** Filtering a sequence with one more element at the end filters the rest
      and then keeps or drops that element. */
  lemma {:induction false} FilterSnoc<T>(xs: seq<T>, y: T, p: T -> bool)
    ensures Filter(xs + [y], p) == Filter(xs, p) + (if p(y) then [y] else [])
    decreases |xs|
  {
    if xs == [] {
      assert xs + [y] == [y];
    } else {
      assert (xs + [y])[1..] == xs[1..] + [y];
      FilterSnoc(xs[1..], y, p);
    }
  }

  /** `a` is `b` with some elements left out, the rest in their original order. */
  predicate IsSubsequence<T(==)>(a: seq<T>, b: seq<T>)
    decreases |b|
  {
    if a == [] then true
    else if b == [] then false
    else if a[0] == b[0] then IsSubsequence(a[1..], b[1..])
    else IsSubsequence(a, b[1..])
  }

  /** Filtering preserves the relative order of what it keeps. */
  lemma {:induction false} FilterIsSubsequence<T>(xs: seq<T>, p: T -> bool)
    ensures IsSubsequence(Filter(xs, p), xs)
    decreases |xs|
  {
    if xs != [] {
      FilterIsSubsequence(xs[1..], p);
      if !p(xs[0]) {
        var r := Filter(xs[1..], p);
        if r != [] && r[0] == xs[0] {
          SubsequenceDrop(r, xs);
        }
      }
    }
  }

  /** If `a` is a subsequence of `b[1..]` then it is one of `b`. */
  lemma {:induction false} SubsequenceDrop<T>(a: seq<T>, b: seq<T>)
    requires b != [] && IsSubsequence(a, b[1..])
    ensures IsSubsequence(a, b)
    decreases |b|, 0
  {
    if a != [] && a[0] == b[0] {
      SubsequenceTail(a, b[1..]);
    }
  }

  /** Dropping the head of a non-empty subsequence keeps it a subsequence. */
  lemma {:induction false} SubsequenceTail<T>(a: seq<T>, c: seq<T>)
    requires a != [] && IsSubsequence(a, c)
    ensures IsSubsequence(a[1..], c)
    decreases |c|, 1
  {
    if a[0] != c[0] {
      SubsequenceTail(a, c[1..]);
    }
    SubsequenceDrop(a[1..], c);
  }

  /** The index that `slice` derives from a possibly negative argument. */
  function SliceIndex(i: int, len: nat): (k: nat)
    ensures k <= len
    ensures 0 <= i <= len ==> k == i
  {
    if i < 0 then (if len + i < 0 then 0 else len + i)
    else if i > len then len
    else i
  }

  /** `xs.slice(start, end)`. */
  function JsSlice<T>(xs: seq<T>, start: int, end: int): (r: seq<T>)
    ensures |r| <= |xs|
    ensures forall x :: x in r ==> x in xs
    ensures 0 <= start <= end <= |xs| ==> r == xs[start..end]
  {
    var s := SliceIndex(start, |xs|);
    var e := SliceIndex(end, |xs|);
    if e <= s then [] else xs[s..e]
  }

  /** A slice with non-negative bounds is a contiguous run of the input of at most
      `end - start` elements. */
  lemma SliceContiguous<T>(xs: seq<T>, start: int, end: int)
    requires 0 <= start <= end
    ensures |JsSlice(xs, start, end)| <= end - start
    ensures start <= |xs| ==> JsSlice(xs, start, end) == xs[start..if end <= |xs| then end else |xs|]
    ensures start > |xs| ==> JsSlice(xs, start, end) == []
  {
  }

  // ---- sorting ----

  /** `le(a, b)` is a comparator's "a may stand before b" (`cmp(a, b) <= 0`). */
  ghost predicate TotalPreorder<T(!new)>(le: (T, T) -> bool) {
    && (forall a, b :: le(a, b) || le(b, a))
    && (forall a, b, c :: le(a, b) && le(b, c) ==> le(a, c))
  }

  predicate SortedBy<T>(le: (T, T) -> bool, xs: seq<T>) {
    forall i, j :: 0 <= i < j < |xs| ==> le(xs[i], xs[j])
  }

  /** Inserts `x` before the first element it may precede; an earlier element goes
      before equal later ones, so the sort below is stable as Array.prototype.sort is. */
  function Insert<T>(le: (T, T) -> bool, x: T, ys: seq<T>): (r: seq<T>)
    ensures multiset(r) == multiset(ys) + multiset{x}
    ensures |r| == |ys| + 1
    decreases |ys|
  {
    if ys == [] then [x]
    else if le(x, ys[0]) then [x] + ys
    else
      assert ys == [ys[0]] + ys[1..];
      [ys[0]] + Insert(le, x, ys[1..])
  }

  /** `xs.sort(cmp)` on a copy: a stable insertion sort. */
  function SortBy<T>(le: (T, T) -> bool, xs: seq<T>): (r: seq<T>)
    ensures multiset(r) == multiset(xs)
    ensures |r| == |xs|
    decreases |xs|
  {
    if xs == [] then []
    else
      assert xs == [xs[0]] + xs[1..];
      Insert(le, xs[0], SortBy(le, xs[1..]))
  }

  lemma {:induction false} InsertSorted<T(!new)>(le: (T, T) -> bool, x: T, ys: seq<T>)
    requires TotalPreorder(le)
    requires SortedBy(le, ys)
    ensures SortedBy(le, Insert(le, x, ys))
    decreases |ys|
  {
    if ys != [] && !le(x, ys[0]) {
      InsertSorted(le, x, ys[1..]);
      var r := Insert(le, x, ys[1..]);
      assert le(ys[0], x);
      forall k | 0 <= k < |r| ensures le(ys[0], r[k]) {
        assert r[k] in multiset(r);
        assert r[k] == x || r[k] in multiset(ys[1..]);
        if r[k] != x {
          var m :| 0 <= m < |ys[1..]| && ys[1..][m] == r[k];
          assert ys[1..][m] == ys[m + 1];
        }
      }
    } else if ys != [] {
      assert forall k :: 0 <= k < |ys| ==> le(ys[0], ys[k]);
    }
  }

  /** The sort's output is ordered by any total preorder it is given. */
  lemma {:induction false} SortBySorted<T(!new)>(le: (T, T) -> bool, xs: seq<T>)
    requires TotalPreorder(le)
    ensures SortedBy(le, SortBy(le, xs))
    decreases |xs|
  {
    if xs != [] {
      SortBySorted(le, xs[1..]);
      InsertSorted(le, xs[0], SortBy(le, xs[1..]));
    }
  }

  /** Elements of the sort are exactly those of the input. */
  lemma SortByMembers<T>(le: (T, T) -> bool, xs: seq<T>, x: T)
    ensures x in SortBy(le, xs) <==> x in xs
  {
    assert x in SortBy(le, xs) <==> x in multiset(SortBy(le, xs));
    assert x in xs <==> x in multiset(xs);
  }

  // ---- ordinal string order ----

  /** Ordinal lexicographic order of strings by Unicode scalar value, the stand-in
      for `localeCompare` (see README). It is also the order of `Array.prototype.sort()`
      without a comparator, which compares UTF-16 code units, except between a
      character beyond U+FFFF and one in U+E000..U+FFFF. */
  predicate LexLe(a: string, b: string)
    decreases |a|
  {
    a == [] || (b != [] && (a[0] < b[0] || (a[0] == b[0] && LexLe(a[1..], b[1..]))))
  }

  lemma {:induction false} LexLeTotal(a: string, b: string)
    ensures LexLe(a, b) || LexLe(b, a)
    decreases |a|
  {
    if a != [] && b != [] && a[0] == b[0] {
      LexLeTotal(a[1..], b[1..]);
    }
  }

  lemma {:induction false} LexLeTransitive(a: string, b: string, c: string)
    requires LexLe(a, b) && LexLe(b, c)
    ensures LexLe(a, c)
    decreases |a|
  {
    if a != [] && a[0] == b[0] && b[0] == c[0] {
      LexLeTransitive(a[1..], b[1..], c[1..]);
    }
  }

  lemma LexLeIsTotalPreorder()
    ensures TotalPreorder(LexLe)
  {
    forall a, b ensures LexLe(a, b) || LexLe(b, a) {
      LexLeTotal(a, b);
    }
    forall a, b, c | LexLe(a, b) && LexLe(b, c) ensures LexLe(a, c) {
      LexLeTransitive(a, b, c);
    }
  }
}
