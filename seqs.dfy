/** `Array.prototype.filter` and what the screens rely on when they filter a list. */
module Seqs {

  /** `s.filter(keep)`: the elements `keep` accepts, in their original order. */
  function Filter<T>(s: seq<T>, keep: T -> bool): (r: seq<T>)
    ensures |r| <= |s|
    ensures forall x :: x in r ==> x in s && keep(x)
  {
    if s == [] then [] else (if keep(s[0]) then [s[0]] else []) + Filter(s[1..], keep)
  }

  /** Nothing that `keep` accepts is lost. */
  lemma {:induction false} FilterKeepsAccepted<T>(s: seq<T>, keep: T -> bool, x: T)
    requires x in s && keep(x)
    ensures x in Filter(s, keep)
  {
    if s[0] != x {
      FilterKeepsAccepted(s[1..], keep, x);
    }
  }

  /** Filtering distributes over concatenation; this is what "in the original order" means. */
  lemma {:induction false} FilterAppend<T>(a: seq<T>, b: seq<T>, keep: T -> bool)
    ensures Filter(a + b, keep) == Filter(a, keep) + Filter(b, keep)
  {
    if a == [] {
      assert a + b == b;
    } else {
      assert (a + b)[0] == a[0];
      assert (a + b)[1..] == a[1..] + b;
      FilterAppend(a[1..], b, keep);
    }
  }

  /** A list every element of which passes comes back unchanged. */
  lemma {:induction false} FilterAllPass<T>(s: seq<T>, keep: T -> bool)
    requires forall i :: 0 <= i < |s| ==> keep(s[i])
    ensures Filter(s, keep) == s
  {
    if s != [] {
      FilterAllPass(s[1..], keep);
    }
  }

  /** A list no element of which passes filters to nothing. */
  lemma {:induction false} FilterNonePass<T>(s: seq<T>, keep: T -> bool)
    requires forall i :: 0 <= i < |s| ==> !keep(s[i])
    ensures Filter(s, keep) == []
  {
    if s != [] {
      FilterNonePass(s[1..], keep);
    }
  }

  /** A list whose head alone passes filters to its head. */
  lemma FilterOnlyHead<T>(s: seq<T>, keep: T -> bool)
    requires s != [] && keep(s[0])
    requires forall i :: 1 <= i < |s| ==> !keep(s[i])
    ensures Filter(s, keep) == [s[0]]
  {
    FilterNonePass(s[1..], keep);
  }

  /** Two neighbours that the test does not both accept may trade places. */
  lemma FilterSwapHead<T>(x: T, y: T, t: seq<T>, keep: T -> bool)
    requires !(keep(x) && keep(y))
    ensures Filter([y] + ([x] + t), keep) == Filter([x] + ([y] + t), keep)
  {
    assert ([y] + ([x] + t))[1..] == [x] + t && ([x] + t)[1..] == t;
    assert ([x] + ([y] + t))[1..] == [y] + t && ([y] + t)[1..] == t;
  }

  /** Filtering twice with the same test is filtering once. */
  lemma {:induction false} FilterIdempotent<T>(s: seq<T>, keep: T -> bool)
    ensures Filter(Filter(s, keep), keep) == Filter(s, keep)
  {
    var r := Filter(s, keep);
    forall i | 0 <= i < |r| ensures keep(r[i]) {
      assert r[i] in r;
    }
    FilterAllPass(r, keep);
  }

  /** Two tests that agree on every element keep the same elements. */
  lemma {:induction false} FilterCongruent<T>(s: seq<T>, f: T -> bool, g: T -> bool)
    requires forall i :: 0 <= i < |s| ==> f(s[i]) == g(s[i])
    ensures Filter(s, f) == Filter(s, g)
  {
    if s != [] {
      FilterCongruent(s[1..], f, g);
    }
  }

  /** `s.reduce((acc, x) => acc + x, 0)`. */
  function Sum(s: seq<int>): int
  {
    if s == [] then 0 else Sum(s[..|s| - 1]) + s[|s| - 1]
  }

  lemma {:induction false} SumAppend(a: seq<int>, b: seq<int>)
    ensures Sum(a + b) == Sum(a) + Sum(b)
  {
    if b == [] {
      assert a + b == a;
    } else {
      assert (a + b)[..|a + b| - 1] == a + b[..|b| - 1];
      SumAppend(a, b[..|b| - 1]);
    }
  }
}
