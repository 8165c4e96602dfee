/** Sequence helpers shared by the analysis modules: sums and means of reals, prefixes, and
    the deduplication that stands in for Python's `list(set(xs))`. */
module Seqs {

  /** Sum of the first `n` entries, accumulated left to right as the source's loops do. */
  function SumPrefix(s: seq<real>, n: nat): real
    requires n <= |s|
  {
    if n == 0 then 0.0 else SumPrefix(s, n - 1) + s[n - 1]
  }

  function Sum(s: seq<real>): real
  {
    SumPrefix(s, |s|)
  }

  /** Arithmetic mean; the source only takes it of non-empty lists. */
  function Mean(s: seq<real>): real
    requires |s| > 0
  {
    Sum(s) / |s| as real
  }

  lemma {:induction false} SumPrefixBounds(s: seq<real>, n: nat, lo: real, hi: real)
    requires n <= |s|
    requires forall i :: 0 <= i < |s| ==> lo <= s[i] <= hi
    ensures n as real * lo <= SumPrefix(s, n) <= n as real * hi
  {
    if n > 0 {
      SumPrefixBounds(s, n - 1, lo, hi);
      BoundStep((n - 1) as real, n as real, SumPrefix(s, n - 1), s[n - 1], lo, hi);
    }
  }

  /** One more entry in [lo, hi] keeps a sum of k entries within k·lo and k·hi. */
  lemma BoundStep(k: real, k1: real, total: real, x: real, lo: real, hi: real)
    requires k1 == k + 1.0
    requires k * lo <= total <= k * hi && lo <= x <= hi
    ensures k1 * lo <= total + x <= k1 * hi
  {
    assert k1 * lo == k * lo + lo;
    assert k1 * hi == k * hi + hi;
  }

  /** The mean of a non-empty list lies between any lower and upper bound of its entries. */
  lemma MeanBounds(s: seq<real>, lo: real, hi: real)
    requires |s| > 0
    requires forall i :: 0 <= i < |s| ==> lo <= s[i] <= hi
    ensures lo <= Mean(s) <= hi
  {
    SumPrefixBounds(s, |s|, lo, hi);
    var n := |s| as real;
    assert n * lo <= Sum(s) <= n * hi;
    DivBounds(Sum(s), n, lo, hi);
  }

  lemma DivBounds(x: real, n: real, lo: real, hi: real)
    requires n > 0.0
    requires n * lo <= x <= n * hi
    ensures lo <= x / n <= hi
  {
    assert x / n * n == x;
  }

  /** The sum of a list whose entries all equal `c` is |s|·c. */
  lemma {:induction false} SumPrefixConstant(s: seq<real>, n: nat, c: real)
    requires n <= |s|
    requires forall i :: 0 <= i < |s| ==> s[i] == c
    ensures SumPrefix(s, n) == n as real * c
  {
    if n > 0 {
      SumPrefixConstant(s, n - 1, c);
    }
  }

  /** The first `n` entries of `s`, or all of `s` when it is shorter (Python's `s[:n]`). */
  function Take<T>(s: seq<T>, n: nat): (r: seq<T>)
    ensures |r| == if |s| < n then |s| else n
    ensures r <= s
  {
    if |s| < n then s else s[..n]
  }

  predicate Distinct<T(==)>(s: seq<T>)
  {
    forall i, j :: 0 <= i < j < |s| ==> s[i] != s[j]
  }

  /** `s` without repeats, keeping first occurrences. Python's `list(set(s))` yields the same
      elements in an unspecified order; callers rely only on the properties proved below. */
  function Dedup<T(==)>(s: seq<T>): seq<T>
  {
    if |s| == 0 then []
    else
      var rest := Dedup(s[..|s| - 1]);
      if s[|s| - 1] in rest then rest else rest + [s[|s| - 1]]
  }

  lemma {:induction false} DedupProperties<T>(s: seq<T>)
    ensures Distinct(Dedup(s))
    ensures forall x :: x in Dedup(s) <==> x in s
    ensures |Dedup(s)| == |set x | x in s|
  {
    if |s| > 0 {
      var init := s[..|s| - 1];
      var last := s[|s| - 1];
      DedupProperties(init);
      assert s == init + [last];
      assert (set x | x in s) == (set x | x in init) + {last};
      if last !in Dedup(init) {
        assert last !in (set x | x in init);
      }
    }
  }

  /** The smallest entry of a non-empty list. */
  function Min(s: seq<real>): (m: real)
    requires |s| > 0
    ensures forall i :: 0 <= i < |s| ==> m <= s[i]
    ensures exists i :: 0 <= i < |s| && m == s[i]
  {
    if |s| == 1 then s[0]
    else
      var rest := Min(s[1..]);
      assert forall i :: 1 <= i < |s| ==> s[i] == s[1..][i - 1];
      if s[0] <= rest then s[0] else rest
  }

  /** The largest entry of a non-empty list. */
  function Max(s: seq<real>): (m: real)
    requires |s| > 0
    ensures forall i :: 0 <= i < |s| ==> s[i] <= m
    ensures exists i :: 0 <= i < |s| && m == s[i]
  {
    if |s| == 1 then s[0]
    else
      var rest := Max(s[1..]);
      assert forall i :: 1 <= i < |s| ==> s[i] == s[1..][i - 1];
      if s[0] >= rest then s[0] else rest
  }

  /** What Python's `list(set(s))[:n]` promises whatever order the set iterates in: distinct
      elements of `s`, as many as `s` has up to `n`, and all of them when that many fit. */
  predicate UniqueSample<T(==)>(r: seq<T>, s: seq<T>, n: nat)
  {
    && Distinct(r)
    && (forall x :: x in r ==> x in s)
    && |r| == (if |set x | x in s| < n then |set x | x in s| else n)
    && (|set x | x in s| <= n ==> forall x :: x in s ==> x in r)
  }

  /** Keeping the first `n` of the de-duplicated list is one such sample. */
  lemma DistinctTake<T>(s: seq<T>, n: nat)
    ensures UniqueSample(Take(Dedup(s), n), s, n)
  {
    DedupProperties(s);
    var d := Dedup(s);
    var t := Take(d, n);
    forall x | x in t ensures x in s {
      var k :| 0 <= k < |t| && t[k] == x;
      assert d[k] == x;
    }
    if |set x | x in s| <= n {
      assert t == d;
    }
  }
}
