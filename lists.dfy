/** Order-preserving filtering of lists of strings, as list comprehensions with a condition do it. */
module Lists {

  /** The elements of `s` that `keep` accepts, in their order in `s`. */
  function Filter(s: seq<string>, keep: string -> bool): (r: seq<string>)
    ensures |r| <= |s|
    ensures forall n :: n in r <==> n in s && keep(n)
  {
    if s == [] then []
    else Filter(s[..|s| - 1], keep) + (if keep(s[|s| - 1]) then [s[|s| - 1]] else [])
  }

  /** `x` occurs in `s` strictly before some occurrence of `y`. */
  predicate InOrder(s: seq<string>, x: string, y: string)
  {
    exists a, b :: 0 <= a < b < |s| && s[a] == x && s[b] == y
  }

  /** No element occurs twice. */
  predicate Distinct(s: seq<string>)
  {
    forall i, j :: 0 <= i < j < |s| ==> s[i] != s[j]
  }

  /** A filter keeps the relative order of what it keeps: it is a subsequence. */
  lemma {:induction false} FilterOrdered(s: seq<string>, keep: string -> bool)
    ensures forall i, j :: 0 <= i < j < |Filter(s, keep)| ==> InOrder(s, Filter(s, keep)[i], Filter(s, keep)[j])
  {
    if s != [] {
      var init := s[..|s| - 1];
      FilterOrdered(init, keep);
      var fi := Filter(init, keep);
      var r := Filter(s, keep);
      assert r[..|fi|] == fi;
      forall i, j | 0 <= i < j < |r|
        ensures InOrder(s, r[i], r[j])
      {
        if j < |fi| {
          assert InOrder(init, fi[i], fi[j]);
          var a, b :| 0 <= a < b < |init| && init[a] == fi[i] && init[b] == fi[j];
          assert s[a] == r[i] && s[b] == r[j];
        } else {
          assert r[j] == s[|s| - 1];
          assert fi[i] in init;
          var a :| 0 <= a < |init| && init[a] == fi[i];
          assert s[a] == r[i];
        }
      }
    }
  }

  /** A filter of a list without repetitions has no repetitions. */
  lemma FilterDistinct(s: seq<string>, keep: string -> bool)
    requires Distinct(s)
    ensures Distinct(Filter(s, keep))
  {
    FilterOrdered(s, keep);
    var r := Filter(s, keep);
    forall i, j | 0 <= i < j < |r|
      ensures r[i] != r[j]
    {
      assert InOrder(s, r[i], r[j]);
    }
  }

  /** Filtering with two tests that agree everywhere gives the same list. */
  lemma {:induction false} FilterSameTest(s: seq<string>, f1: string -> bool, f2: string -> bool)
    requires forall n :: f1(n) == f2(n)
    ensures Filter(s, f1) == Filter(s, f2)
  {
    if s != [] {
      FilterSameTest(s[..|s| - 1], f1, f2);
    }
  }

  /** A test that accepts nothing filters everything out. */
  lemma {:induction false} FilterNothingKept(s: seq<string>, keep: string -> bool)
    requires forall n :: !keep(n)
    ensures Filter(s, keep) == []
  {
    if s != [] {
      FilterNothingKept(s[..|s| - 1], keep);
    }
  }
}
