/** Ascending sorting of real-valued sample buffers, the role `sort.Float64s`
    plays in bandit.go and experiment.go. `SortedSeq` is the specification:
    the unique ascending permutation of a sequence. `SortInPlace` is the
    in-place sort, proved to produce exactly that sequence. */
module Sorting {

  ghost predicate Sorted(s: seq<real>) {
    forall p, q :: 0 <= p < q < |s| ==> s[p] <= s[q]
  }

  /** Inserts `x` into `s` in front of the first element not smaller than it. */
  ghost function Insert(x: real, s: seq<real>): (r: seq<real>)
    ensures multiset(r) == multiset(s) + multiset{x}
    ensures |r| == |s| + 1
    decreases |s|
  {
    if s == [] || x <= s[0] then [x] + s
    else
      assert s == [s[0]] + s[1..];
      [s[0]] + Insert(x, s[1..])
  }

  /** A head no larger than every element of a sorted tail keeps it sorted. */
  lemma ConsSorted(h: real, t: seq<real>)
    requires Sorted(t)
    requires forall k :: 0 <= k < |t| ==> h <= t[k]
    ensures Sorted([h] + t)
  {
    var r := [h] + t;
    forall p, q | 0 <= p < q < |r| ensures r[p] <= r[q] {
      assert r[q] == t[q - 1];
      if p > 0 {
        assert r[p] == t[p - 1];
      }
    }
  }

  /** When `s` is sorted and `x` exceeds its head, the head of `s` bounds
      every element of `rest`, which holds the tail of `s` and `x`. */
  lemma HeadBoundsTail(s: seq<real>, x: real, rest: seq<real>)
    requires Sorted(s) && s != [] && s[0] < x
    requires multiset(rest) == multiset(s[1..]) + multiset{x}
    ensures forall k :: 0 <= k < |rest| ==> s[0] <= rest[k]
  {
    forall k | 0 <= k < |rest| ensures s[0] <= rest[k] {
      assert rest[k] in multiset(rest);
      if rest[k] != x {
        assert rest[k] in s[1..];
      }
    }
  }

  /** Inserting into a sorted sequence keeps it sorted. */
  lemma {:induction false} InsertSorted(x: real, s: seq<real>)
    requires Sorted(s)
    ensures Sorted(Insert(x, s))
    decreases |s|
  {
    if s == [] || x <= s[0] {
      ConsSorted(x, s);
    } else {
      var rest := Insert(x, s[1..]);
      InsertSorted(x, s[1..]);
      HeadBoundsTail(s, x, rest);
      ConsSorted(s[0], rest);
    }
  }

  /** The ascending arrangement of `s`. */
  ghost function SortedSeq(s: seq<real>): (r: seq<real>)
    ensures Sorted(r)
    ensures multiset(r) == multiset(s)
    ensures |r| == |s|
    decreases |s|
  {
    if s == [] then []
    else
      assert s == [s[0]] + s[1..];
      var t := SortedSeq(s[1..]);
      InsertSorted(s[0], t);
      Insert(s[0], t)
  }

  /** The head of an ascending sequence is its least element. */
  lemma HeadIsLeast(a: seq<real>, x: real)
    requires Sorted(a) && x in multiset(a)
    ensures a[0] <= x
  {
    var k :| 0 <= k < |a| && a[k] == x;
  }

  /** Two ascending sequences holding the same elements are equal: a sorted
      permutation is unique, so any sort returns `SortedSeq` of its input. */
  lemma {:induction false} SortedPermutationUnique(a: seq<real>, b: seq<real>)
    requires Sorted(a) && Sorted(b)
    requires multiset(a) == multiset(b)
    ensures a == b
    decreases |a|
  {
    assert |a| == |multiset(a)| == |multiset(b)| == |b|;
    if |a| > 0 {
      HeadIsLeast(a, b[0]);
      HeadIsLeast(b, a[0]);
      var x := a[0];
      assert a == [x] + a[1..] && b == [x] + b[1..];
      assert multiset(a[1..]) == multiset(a) - multiset{x};
      assert multiset(b[1..]) == multiset(b) - multiset{x};
      SortedTail(a);
      SortedTail(b);
      SortedPermutationUnique(a[1..], b[1..]);
    }
  }

  lemma SortedTail(a: seq<real>)
    requires Sorted(a) && a != []
    ensures Sorted(a[1..])
  {
  }

  /** Every element of the sorted arrangement comes from the input. */
  lemma SortedSeqElement(s: seq<real>, k: nat)
    requires k < |s|
    ensures SortedSeq(s)[k] in s
  {
    assert SortedSeq(s)[k] in multiset(SortedSeq(s));
  }

  /** Which side of a threshold an element is counted on. */
  datatype Side = AtMost | AtLeast

  /** `x` lies on `side` of the threshold `v` (the threshold included). */
  predicate Within(x: real, side: Side, v: real) {
    match side
    case AtMost => x <= v
    case AtLeast => x >= v
  }

  /** Number of elements of `s` on `side` of `v`. */
  ghost function Count(s: seq<real>, side: Side, v: real): nat
    decreases |s|
  {
    if s == [] then 0 else (if Within(s[0], side, v) then 1 else 0) + Count(s[1..], side, v)
  }

  lemma {:induction false} CountAppend(a: seq<real>, b: seq<real>, side: Side, v: real)
    ensures Count(a + b, side, v) == Count(a, side, v) + Count(b, side, v)
    decreases |a|
  {
    if a == [] {
      assert a + b == b;
    } else {
      assert (a + b)[1..] == a[1..] + b;
      CountAppend(a[1..], b, side, v);
    }
  }

  lemma {:induction false} CountEvery(s: seq<real>, side: Side, v: real)
    requires forall i :: 0 <= i < |s| ==> Within(s[i], side, v)
    ensures Count(s, side, v) == |s|
    decreases |s|
  {
    if s != [] {
      CountEvery(s[1..], side, v);
    }
  }

  /** Taking out the element at `k` lowers the count by its own share. */
  lemma CountRemove(b: seq<real>, k: nat, side: Side, v: real)
    requires k < |b|
    ensures Count(b, side, v)
              == (if Within(b[k], side, v) then 1 else 0) + Count(b[..k] + b[k + 1..], side, v)
  {
    assert b == b[..k] + ([b[k]] + b[k + 1..]);
    CountAppend(b[..k], [b[k]] + b[k + 1..], side, v);
    assert ([b[k]] + b[k + 1..])[1..] == b[k + 1..];
    CountAppend(b[..k], b[k + 1..], side, v);
  }

  /** A count depends only on the elements, not on their order. */
  lemma {:induction false} CountPermutation(a: seq<real>, b: seq<real>, side: Side, v: real)
    requires multiset(a) == multiset(b)
    ensures Count(a, side, v) == Count(b, side, v)
    decreases |a|
  {
    assert |a| == |multiset(a)| == |multiset(b)| == |b|;
    if a != [] {
      var k := RemoveMatching(a, b);
      CountPermutation(a[1..], b[..k] + b[k + 1..], side, v);
      CountRemove(b, k, side, v);
    }
  }

  /** Finds in `b` the head of `a` and shows that what is left of each is
      again a permutation of the other. */
  lemma RemoveMatching(a: seq<real>, b: seq<real>) returns (k: nat)
    requires a != [] && multiset(a) == multiset(b)
    ensures k < |b| && b[k] == a[0]
    ensures multiset(a[1..]) == multiset(b[..k] + b[k + 1..])
  {
    assert a[0] in multiset(b);
    k :| 0 <= k < |b| && b[k] == a[0];
    var rest := b[..k] + b[k + 1..];
    assert b == b[..k] + [b[k]] + b[k + 1..];
    assert a == [a[0]] + a[1..];
    assert multiset(a[1..]) == multiset(a) - multiset{a[0]};
    assert multiset(rest) == multiset(b) - multiset{b[k]};
  }

  /** The element at rank `k` of the ascending arrangement of `s` is a
      percentile of `s`: at least `k + 1` elements are not above it and at
      least `|s| - k` elements are not below it. */
  lemma SortedSeqRank(s: seq<real>, k: nat)
    requires k < |s|
    ensures Count(s, AtMost, SortedSeq(s)[k]) >= k + 1
    ensures Count(s, AtLeast, SortedSeq(s)[k]) >= |s| - k
  {
    var t := SortedSeq(s);
    NotAboveRank(t, k);
    CountPermutation(s, t, AtMost, t[k]);
    NotBelowRank(t, k);
    CountPermutation(s, t, AtLeast, t[k]);
  }

  lemma NotAboveRank(t: seq<real>, k: nat)
    requires Sorted(t) && k < |t|
    ensures Count(t, AtMost, t[k]) >= k + 1
  {
    var lo, hi := t[..k + 1], t[k + 1..];
    assert t == lo + hi;
    CountAppend(lo, hi, AtMost, t[k]);
    forall i | 0 <= i < |lo| ensures Within(lo[i], AtMost, t[k]) {
      assert lo[i] == t[i];
    }
    CountEvery(lo, AtMost, t[k]);
  }

  lemma NotBelowRank(t: seq<real>, k: nat)
    requires Sorted(t) && k < |t|
    ensures Count(t, AtLeast, t[k]) >= |t| - k
  {
    var lo, hi := t[..k], t[k..];
    assert t == lo + hi;
    CountAppend(lo, hi, AtLeast, t[k]);
    forall i | 0 <= i < |hi| ensures Within(hi[i], AtLeast, t[k]) {
      assert hi[i] == t[k + i];
    }
    CountEvery(hi, AtLeast, t[k]);
  }

  /** Sorts `a` ascending in place (insertion sort by adjacent swaps). */
  method SortInPlace(a: array<real>)
    modifies a
    ensures Sorted(a[..])
    ensures multiset(a[..]) == multiset(old(a[..]))
    ensures a[..] == SortedSeq(old(a[..]))
  {
    var i := 0;
    while i < a.Length
      invariant 0 <= i <= a.Length
      invariant Sorted(a[..i])
      invariant multiset(a[..]) == multiset(old(a[..]))
    {
      SinkLast(a, i);
      i := i + 1;
    }
    SortedPermutationUnique(a[..], SortedSeq(old(a[..])));
  }

  /** Moves `a[i]` left past every larger element, so that `a[..i+1]` becomes
      sorted when `a[..i]` was. */
  method SinkLast(a: array<real>, i: nat)
    requires i < a.Length
    requires Sorted(a[..i])
    modifies a
    ensures Sorted(a[..i + 1])
    ensures multiset(a[..]) == multiset(old(a[..]))
  {
    var j := i;
    while j > 0 && a[j - 1] > a[j]
      invariant 0 <= j <= i
      invariant forall p, q :: 0 <= p < q <= i && q != j ==> a[p] <= a[q]
      invariant multiset(a[..]) == multiset(old(a[..]))
    {
      SwapAdjacent(a, j - 1);
      j := j - 1;
    }
  }

  /** Exchanges `a[j]` and `a[j + 1]`. */
  method SwapAdjacent(a: array<real>, j: nat)
    requires j + 1 < a.Length
    modifies a
    ensures a[..] == old(a[..])[j := old(a[j + 1])][j + 1 := old(a[j])]
    ensures multiset(a[..]) == multiset(old(a[..]))
  {
    a[j], a[j + 1] := a[j + 1], a[j];
  }
}
