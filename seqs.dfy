/** Generic list operations the backend uses: slicing, first-match scans, filtering and order-keeping subsequences. */
module Seqs {

  function Min(a: int, b: int): int
  {
    if a < b then a else b
  }

  /** Python's `xs[:n]`: the first n elements, or all of them when there are fewer. */
  function Take<T>(xs: seq<T>, n: nat): (r: seq<T>)
    ensures |r| == Min(n, |xs|)
    ensures r == xs[..|r|]
  {
    if n < |xs| then xs[..n] else xs
  }

  /** Index of the first element at or after i that satisfies p; |xs| when there is none.
      This is the source's `for x in xs: if p(x): ...; break`. */
  function FirstFrom<T>(xs: seq<T>, p: T -> bool, i: nat): (k: nat)
    requires i <= |xs|
    ensures i <= k <= |xs|
    ensures k < |xs| ==> p(xs[k])
    ensures forall j :: i <= j < k ==> !p(xs[j])
    decreases |xs| - i
  {
    if i == |xs| then i
    else if p(xs[i]) then i
    else FirstFrom(xs, p, i + 1)
  }

  /** `[x for x in xs if x not in ys]`. */
  function Without(xs: seq<string>, ys: seq<string>): (r: seq<string>)
    ensures forall x :: x in r <==> x in xs && x !in ys
    ensures |r| <= |xs|
  {
    if xs == [] then []
    else if xs[0] in ys then Without(xs[1..], ys)
    else [xs[0]] + Without(xs[1..], ys)
  }

  /** Filtering by an empty list keeps everything. */
  lemma {:induction false} WithoutNothing(xs: seq<string>)
    ensures Without(xs, []) == xs
  {
    if xs != [] {
      WithoutNothing(xs[1..]);
    }
  }

  /** a can be obtained from b by deleting elements: b's order is kept. */
  predicate IsSubsequence<T(==)>(a: seq<T>, b: seq<T>)
  {
    if a == [] then true
    else if b == [] then false
    else if a[0] == b[0] then IsSubsequence(a[1..], b[1..])
    else IsSubsequence(a, b[1..])
  }

  /** Filtering keeps the relative order of the elements it keeps. */
  lemma {:induction false} WithoutIsSubsequence(xs: seq<string>, ys: seq<string>)
    ensures IsSubsequence(Without(xs, ys), xs)
  {
    if xs != [] {
      WithoutIsSubsequence(xs[1..], ys);
      if xs[0] !in ys {
        assert Without(xs, ys)[1..] == Without(xs[1..], ys);
      } else {
        SubsequenceOfTail(Without(xs[1..], ys), xs);
      }
    }
  }

  lemma {:induction false} SubsequenceOfTail<T>(a: seq<T>, b: seq<T>)
    requires b != [] && IsSubsequence(a, b[1..])
    ensures IsSubsequence(a, b)
    decreases |a| + |b|, 1
  {
    if a != [] && a[0] == b[0] {
      DropHead(a, b[1..]);
    }
  }

  lemma {:induction false} DropHead<T>(a: seq<T>, b: seq<T>)
    requires a != [] && IsSubsequence(a, b)
    ensures IsSubsequence(a[1..], b)
    decreases |a| + |b|, 0
  {
    assert b != [];
    if a[0] == b[0] {
      SubsequenceOfTail(a[1..], b);
    } else {
      DropHead(a, b[1..]);
      SubsequenceOfTail(a[1..], b);
    }
  }
}
