/** Sequence helpers shared by the handlers and the components: order-preserving
    filtering (JavaScript's `Array.prototype.filter`) and counting. */
module Seqs {

  /** `a` is obtained from `b` by deleting elements, keeping the relative order. */
  predicate IsSubseq<T(==)>(a: seq<T>, b: seq<T>)
    decreases |b|
  {
    if a == [] then true
    else if b == [] then false
    else if a[0] == b[0] then IsSubseq(a[1..], b[1..])
    else IsSubseq(a, b[1..])
  }

  /** Prepending to the longer sequence keeps a subsequence; prepending to both extends it. */
  lemma {:induction false} IsSubseqCons<T>(a: seq<T>, x: T, b: seq<T>)
    requires IsSubseq(a, b)
    ensures IsSubseq(a, [x] + b) && IsSubseq([x] + a, [x] + b)
  {
    assert ([x] + a)[1..] == a;
    IsSubseqWeaken(a, b, x);
  }

  lemma {:induction false} IsSubseqWeaken<T>(a: seq<T>, b: seq<T>, x: T)
    requires IsSubseq(a, b)
    ensures IsSubseq(a, [x] + b)
    decreases |b|, 1
  {
    assert ([x] + b)[1..] == b;
    if a != [] && a[0] == x {
      IsSubseqDrop(a, b);
    }
  }

  /** Dropping the head of a subsequence keeps it a subsequence. */
  lemma {:induction false} IsSubseqDrop<T>(a: seq<T>, b: seq<T>)
    requires a != [] && IsSubseq(a, b)
    ensures IsSubseq(a[1..], b)
    decreases |b|, 0
  {
    assert b == [b[0]] + b[1..];
    if a[0] == b[0] {
      IsSubseqWeaken(a[1..], b[1..], b[0]);
    } else {
      IsSubseqDrop(a, b[1..]);
      IsSubseqWeaken(a[1..], b[1..], b[0]);
    }
  }

  /** Every element of a subsequence occurs in the sequence it came from. */
  lemma {:induction false} IsSubseqIn<T>(a: seq<T>, b: seq<T>, x: T)
    requires IsSubseq(a, b) && x in a
    ensures x in b
    decreases |b|
  {
    if a[0] == b[0] {
      if x != a[0] { IsSubseqIn(a[1..], b[1..], x); }
    } else {
      IsSubseqIn(a, b[1..], x);
    }
  }

  lemma {:induction false} IsSubseqRefl<T>(s: seq<T>)
    ensures IsSubseq(s, s)
  {
    if s != [] { IsSubseqRefl(s[1..]); }
  }

  /** A subsequence of a subsequence is a subsequence. */
  lemma {:induction false} IsSubseqTrans<T>(a: seq<T>, b: seq<T>, c: seq<T>)
    requires IsSubseq(a, b) && IsSubseq(b, c)
    ensures IsSubseq(a, c)
    decreases |c|
  {
    if a != [] {
      assert c == [c[0]] + c[1..];
      if b[0] == c[0] {
        if a[0] == b[0] {
          IsSubseqTrans(a[1..], b[1..], c[1..]);
        } else {
          IsSubseqTrans(a, b[1..], c[1..]);
          IsSubseqWeaken(a, c[1..], c[0]);
        }
      } else {
        IsSubseqTrans(a, b, c[1..]);
        IsSubseqWeaken(a, c[1..], c[0]);
      }
    }
  }

  /** `s.filter(p)`: the elements satisfying `p`, in their original order, each as often
      as it occurs in `s`. */
  function Filter<T(==,!new)>(s: seq<T>, p: T -> bool): (r: seq<T>)
    ensures IsSubseq(r, s)
    ensures |r| <= |s|
    ensures forall x :: x in r <==> x in s && p(x)
    ensures forall x :: multiset(r)[x] == if p(x) then multiset(s)[x] else 0
  {
    if s == [] then []
    else
      var rest := Filter(s[1..], p);
      assert s == [s[0]] + s[1..];
      IsSubseqCons(rest, s[0], s[1..]);
      if p(s[0]) then [s[0]] + rest else rest
  }

  /** A filter every element passes keeps the whole sequence. */
  lemma {:induction false} FilterKeepsAll<T(!new)>(s: seq<T>, p: T -> bool)
    requires forall x :: x in s ==> p(x)
    ensures Filter(s, p) == s
  {
    if s != [] {
      FilterKeepsAll(s[1..], p);
      assert s == [s[0]] + s[1..];
    }
  }

  /** The number of elements of `s` satisfying `p`: `s.filter(p).length`. */
  function Count<T(==,!new)>(s: seq<T>, p: T -> bool): (n: nat)
    ensures n == |Filter(s, p)|
    ensures n <= |s|
  {
    if s == [] then 0
    else (if p(s[0]) then 1 else 0) + Count(s[1..], p)
  }

  /** `s.filter((_, i) => i !== k)`: the sequence without position `k`. */
  function RemoveIndex<T>(s: seq<T>, k: int): (r: seq<T>)
    ensures |r| == if 0 <= k < |s| then |s| - 1 else |s|
  {
    RemoveIndexFrom(s, k, 0)
  }

  function RemoveIndexFrom<T>(s: seq<T>, k: int, offset: int): (r: seq<T>)
    ensures |r| == if offset <= k < offset + |s| then |s| - 1 else |s|
    decreases |s|
  {
    if s == [] then []
    else if offset == k then RemoveIndexFrom(s[1..], k, offset + 1)
    else [s[0]] + RemoveIndexFrom(s[1..], k, offset + 1)
  }

  /** Removing position k deletes exactly that element and keeps the others in order;
      an index outside the sequence removes nothing. */
  lemma {:induction false} RemoveIndexSlices<T>(s: seq<T>, k: int)
    ensures RemoveIndex(s, k) == if 0 <= k < |s| then s[..k] + s[k + 1..] else s
  {
    RemoveIndexFromSlices(s, k, 0);
  }

  lemma {:induction false} RemoveIndexFromSlices<T>(s: seq<T>, k: int, offset: int)
    ensures RemoveIndexFrom(s, k, offset)
         == if offset <= k < offset + |s| then s[..k - offset] + s[k - offset + 1..] else s
    decreases |s|
  {
    if s != [] {
      RemoveIndexFromSlices(s[1..], k, offset + 1);
      if offset != k {
        if offset <= k < offset + |s| {
          assert [s[0]] + (s[1..][..k - offset - 1] + s[1..][k - offset..])
              == s[..k - offset] + s[k - offset + 1..];
        } else {
          assert [s[0]] + s[1..] == s;
        }
      }
    }
  }
}
