/**
  The array operations the pages use (`reduce`, `filter`, `slice`, `find`,
  `some`), each specified against an independent definition.
 */
module Seqs {
  import opened Types

  function Min(a: int, b: int): int
  {
    if a <= b then a else b
  }

  /** Reference sum of `f` over `s`, peeling the last element. */
  function Sum<T>(s: seq<T>, f: T -> int): int
  {
    if |s| == 0 then 0 else Sum(s[..|s| - 1], f) + f(s[|s| - 1])
  }

  lemma {:induction false} SumAppend<T>(a: seq<T>, b: seq<T>, f: T -> int)
    ensures Sum(a + b, f) == Sum(a, f) + Sum(b, f)
    decreases |b|
  {
    if |b| == 0 {
      assert a + b == a;
    } else {
      assert (a + b)[..|a + b| - 1] == a + b[..|b| - 1];
      SumAppend(a, b[..|b| - 1], f);
    }
  }

  /** `Array.prototype.reduce((acc, x) => acc + f(x), acc)`: a left fold that
      adds front to back. It agrees with the reference sum. */
  function Reduce<T>(acc: int, s: seq<T>, f: T -> int): (r: int)
    ensures r == acc + Sum(s, f)
    decreases |s|
  {
    if |s| == 0 then acc
    else
      SumAppend([s[0]], s[1..], f);
      assert [s[0]] + s[1..] == s;
      assert [s[0]][..0] == [];
      Reduce(acc + f(s[0]), s[1..], f)
  }

  /** A sum of non-negative terms is non-negative. */
  lemma {:induction false} SumNonNegative<T>(s: seq<T>, f: T -> int)
    requires forall i :: 0 <= i < |s| ==> f(s[i]) >= 0
    ensures Sum(s, f) >= 0
    decreases |s|
  {
    if |s| > 0 {
      SumNonNegative(s[..|s| - 1], f);
    }
  }

  /** A sum of terms each at least 1 is at least the number of terms. */
  lemma {:induction false} SumAtLeastLength<T>(s: seq<T>, f: T -> int)
    requires forall i :: 0 <= i < |s| ==> f(s[i]) >= 1
    ensures Sum(s, f) >= |s|
    decreases |s|
  {
    if |s| > 0 {
      SumAtLeastLength(s[..|s| - 1], f);
    }
  }

  /** `Array.prototype.filter`: the elements satisfying `f`, in order. */
  function Filter<T>(s: seq<T>, f: T -> bool): (r: seq<T>)
    ensures |r| <= |s|
    ensures forall i :: 0 <= i < |r| ==> r[i] in s && f(r[i])
    ensures forall i :: 0 <= i < |s| && f(s[i]) ==> s[i] in r
  {
    if |s| == 0 then []
    else (if f(s[0]) then [s[0]] else []) + Filter(s[1..], f)
  }

  /** Filtering commutes with concatenation, so it keeps the original order. */
  lemma {:induction false} FilterAppend<T>(a: seq<T>, b: seq<T>, f: T -> bool)
    ensures Filter(a + b, f) == Filter(a, f) + Filter(b, f)
    decreases |a|
  {
    if |a| == 0 {
      assert a + b == b;
    } else {
      assert (a + b)[1..] == a[1..] + b;
      FilterAppend(a[1..], b, f);
    }
  }

  /** `slice(0, n)`: the first `n` elements, or all of them if fewer. */
  function Take<T>(s: seq<T>, n: nat): (r: seq<T>)
    ensures |r| == Min(n, |s|)
    ensures r <= s
  {
    if n < |s| then s[..n] else s
  }

  /** `i` is the first position of `s` whose element satisfies `f`. */
  ghost predicate IsFirstMatch<T>(s: seq<T>, f: T -> bool, i: int)
  {
    0 <= i < |s| && f(s[i]) && forall j :: 0 <= j < i ==> !f(s[j])
  }

  /** Position of the first element satisfying `f`, if any. */
  function FirstIndex<T>(s: seq<T>, f: T -> bool): (r: Option<nat>)
    ensures r.Some? ==> IsFirstMatch(s, f, r.value)
    ensures r.None? ==> forall j :: 0 <= j < |s| ==> !f(s[j])
  {
    if |s| == 0 then None
    else if f(s[0]) then Some(0)
    else
      match FirstIndex(s[1..], f)
      case None => None
      case Some(k) => Some(k + 1)
  }

  /** `Array.prototype.find`: the first element satisfying `f`, if any. */
  function Find<T>(s: seq<T>, f: T -> bool): (r: Option<T>)
    ensures r.None? <==> forall j :: 0 <= j < |s| ==> !f(s[j])
    ensures r.Some? ==> exists i :: IsFirstMatch(s, f, i) && s[i] == r.value
  {
    match FirstIndex(s, f)
    case None => None
    case Some(i) => Some(s[i])
  }

  /** `Array.prototype.some`: whether any element satisfies `f`. */
  function Any<T>(s: seq<T>, f: T -> bool): (r: bool)
    ensures r <==> exists i :: 0 <= i < |s| && f(s[i])
  {
    if |s| == 0 then false
    else f(s[0]) || (assert forall i :: 0 <= i < |s| - 1 ==> s[1..][i] == s[i + 1]; Any(s[1..], f))
  }

  /** `some` holds exactly when `find` finds something. */
  lemma AnyIffFound<T>(s: seq<T>, f: T -> bool)
    ensures Any(s, f) <==> Find(s, f).Some?
  {
  }

  /** No two positions of `s` hold the same value. */
  ghost predicate Distinct<T>(s: seq<T>)
  {
    forall i, j :: 0 <= i < j < |s| ==> s[i] != s[j]
  }
}
