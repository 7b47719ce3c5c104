/**
  The LINQ operators the core composes its searches from: `Where` (Filter),
  `Take`, and `Where(...).Take(...)` evaluated lazily when the predicate can throw.
 */
module Sequences {
  import opened Wrappers

  function Min(a: int, b: int): int { if a <= b then a else b }
  function Max(a: int, b: int): int { if a <= b then b else a }

  /** `r` is an order-preserving subsequence of `s`. */
  predicate Subseq<T(==)>(r: seq<T>, s: seq<T>)
    decreases |s|
  {
    r == [] || (s != [] && ((r[0] == s[0] && Subseq(r[1..], s[1..])) || Subseq(r, s[1..])))
  }

  lemma {:induction false} SubseqLength<T>(r: seq<T>, s: seq<T>)
    requires Subseq(r, s)
    ensures |r| <= |s|
    ensures forall x :: x in r ==> x in s
    decreases |s|
  {
    if r != [] {
      assert forall x :: x in s[1..] ==> x in s;
      if r[0] == s[0] && Subseq(r[1..], s[1..]) {
        SubseqLength(r[1..], s[1..]);
        assert forall x :: x in r ==> x == r[0] || x in r[1..];
      } else {
        SubseqLength(r, s[1..]);
      }
    }
  }

  lemma {:induction false} SubseqRefl<T>(s: seq<T>)
    ensures Subseq(s, s)
    decreases |s|
  {
    if s != [] { SubseqRefl(s[1..]); }
  }

  lemma {:induction false} SubseqTrans<T>(a: seq<T>, b: seq<T>, c: seq<T>)
    requires Subseq(a, b) && Subseq(b, c)
    ensures Subseq(a, c)
    decreases |c|
  {
    if a != [] {
      SubseqLength(b, c);
      assert b != [];
      if b[0] == c[0] && Subseq(b[1..], c[1..]) {
        if a[0] == b[0] && Subseq(a[1..], b[1..]) {
          SubseqTrans(a[1..], b[1..], c[1..]);
        } else {
          SubseqTrans(a, b[1..], c[1..]);
        }
      } else {
        SubseqTrans(a, b, c[1..]);
      }
    }
  }

  /** Every prefix of `s` is a subsequence of `s`. */
  lemma {:induction false} PrefixIsSubseq<T>(s: seq<T>, k: nat)
    requires k <= |s|
    ensures Subseq(s[..k], s)
    decreases |s|
  {
    if k > 0 {
      assert s[..k][1..] == s[1..][..k - 1];
      PrefixIsSubseq(s[1..], k - 1);
    }
  }

  /** LINQ `s.Where(p)`: the elements satisfying `p`, in their original order. */
  function Filter<T>(s: seq<T>, p: T -> bool): (r: seq<T>)
    ensures Subseq(r, s)
    ensures forall x :: x in r ==> x in s && p(x)
    ensures forall x :: x in s && p(x) ==> x in r
    ensures forall i :: 0 <= i < |r| ==> p(r[i])
    decreases |s|
  {
    if s == [] then []
    else if p(s[0]) then [s[0]] + Filter(s[1..], p)
    else Filter(s[1..], p)
  }

  /** A predicate that holds everywhere on `s` keeps all of `s`. */
  lemma {:induction false} FilterKeepsAll<T>(s: seq<T>, p: T -> bool)
    requires forall x :: x in s ==> p(x)
    ensures Filter(s, p) == s
    decreases |s|
  {
    if s != [] { FilterKeepsAll(s[1..], p); }
  }

  /** Two `Where`s in a row keep what their conjunction keeps. */
  lemma {:induction false} FilterFilter<T>(s: seq<T>, p: T -> bool, q: T -> bool, pq: T -> bool)
    requires forall x :: pq(x) == (p(x) && q(x))
    ensures Filter(Filter(s, p), q) == Filter(s, pq)
    decreases |s|
  {
    if s != [] {
      FilterFilter(s[1..], p, q, pq);
      if p(s[0]) {
        assert Filter(s, p) == [s[0]] + Filter(s[1..], p);
        assert ([s[0]] + Filter(s[1..], p))[1..] == Filter(s[1..], p);
      }
    }
  }

  /** A `Where` whose predicate holds nowhere on `s` keeps nothing. */
  lemma FilterKeepsNone<T>(s: seq<T>, p: T -> bool)
    requires forall x :: x in s ==> !p(x)
    ensures Filter(s, p) == []
  {
  }

  /** LINQ `s.Take(n)`: the first `n` elements; a count of zero or less gives nothing. */
  function Take<T>(s: seq<T>, n: int): (r: seq<T>)
    ensures |r| == Min(Max(n, 0), |s|)
    ensures r == s[..|r|]
  {
    if n <= 0 then [] else if n >= |s| then s else s[..n]
  }

  /**
    LINQ `s.Where(p).Take(n)`: the first matches of `s`, in order, at most `n` of
    them, holding every element that satisfies `p` unless it was cut short.
   */
  function FilterTake<T>(s: seq<T>, p: T -> bool, n: int): (r: seq<T>)
    ensures Subseq(r, s)
    ensures forall i :: 0 <= i < |r| ==> p(r[i])
    ensures |r| <= Max(n, 0)
    ensures |r| == Min(Max(n, 0), |Filter(s, p)|)
    ensures r == Filter(s, p)[..|r|]
    ensures |r| < n ==> forall x :: x in s && p(x) ==> x in r
  {
    var f := Filter(s, p);
    var r := Take(f, n);
    PrefixIsSubseq(f, |r|);
    SubseqTrans(r, f, s);
    r
  }

  /**
    LINQ `s.Where(p).Take(n)` when evaluating `p` may throw (`p(x) == None`):
    elements are examined lazily, in order, and only until `n` have been kept.
   */
  function FilterTakeLazy<T>(s: seq<T>, p: T -> Option<bool>, n: int): Option<seq<T>>
    decreases |s|
  {
    if n <= 0 || s == [] then Some([])
    else match p(s[0])
      case None => None
      case Some(keep) =>
        if keep then
          match FilterTakeLazy(s[1..], p, n - 1)
          case None => None
          case Some(rest) => Some([s[0]] + rest)
        else FilterTakeLazy(s[1..], p, n)
  }

  /** The predicate that holds where `p` returns true without throwing. */
  function HoldsWithoutThrow<T>(p: T -> Option<bool>): T -> bool {
    x => p(x) == Some(true)
  }

  /** A lazy filter that does not throw returns exactly `Where(...).Take(...)` of the elements where `p` holds. */
  lemma {:induction false} FilterTakeLazyValue<T>(s: seq<T>, p: T -> Option<bool>, n: int)
    requires FilterTakeLazy(s, p, n).Some?
    ensures FilterTakeLazy(s, p, n).value == Take(Filter(s, HoldsWithoutThrow(p)), n)
    decreases |s|
  {
    if n > 0 && s != [] {
      var q := HoldsWithoutThrow(p);
      if p(s[0]) == Some(true) {
        FilterTakeLazyValue(s[1..], p, n - 1);
        var f := Filter(s[1..], q);
        assert Filter(s, q) == [s[0]] + f;
        assert Take([s[0]] + f, n) == [s[0]] + Take(f, n - 1);
      } else {
        FilterTakeLazyValue(s[1..], p, n);
      }
    }
  }

  /** A lazy filter throws only on an element where `p` throws. */
  lemma {:induction false} FilterTakeLazyThrows<T>(s: seq<T>, p: T -> Option<bool>, n: int)
    requires FilterTakeLazy(s, p, n).None?
    ensures exists x :: x in s && p(x).None?
    decreases |s|
  {
    if p(s[0]).Some? {
      if p(s[0]).value {
        FilterTakeLazyThrows(s[1..], p, n - 1);
      } else {
        FilterTakeLazyThrows(s[1..], p, n);
      }
      var x :| x in s[1..] && p(x).None?;
      assert x in s;
    }
  }

  /** A lazy filter cannot throw when `p` never does. */
  lemma {:induction false} FilterTakeLazyTotal<T>(s: seq<T>, p: T -> Option<bool>, n: int)
    requires forall x :: x in s ==> p(x).Some?
    ensures FilterTakeLazy(s, p, n).Some?
    decreases |s|
  {
    if n > 0 && s != [] {
      assert s[0] in s;
      assert forall x :: x in s[1..] ==> x in s;
      FilterTakeLazyTotal(s[1..], p, n - 1);
      FilterTakeLazyTotal(s[1..], p, n);
    }
  }
}
