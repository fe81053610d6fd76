/** Facts about sequences and the multisets of their elements. */
module Sequences {

  lemma InsertAddsOne<T>(s: seq<T>, p: nat, x: T)
    requires p <= |s|
    ensures multiset(s[..p] + [x] + s[p..]) == multiset(s) + multiset{x}
  {
    assert s == s[..p] + s[p..];
  }

  lemma PushAddsOne<T>(s: seq<T>, x: T)
    ensures multiset(s + [x]) == multiset(s) + multiset{x}
  {
  }

  /** x arises from y by leaving out elements. */
  ghost predicate Subsequence<T>(x: seq<T>, y: seq<T>)
    decreases |y|
  {
    if y == [] then x == []
    else
      var l := |y| - 1;
      Subsequence(x, y[..l]) || (x != [] && x[|x| - 1] == y[l] && Subsequence(x[..|x| - 1], y[..l]))
  }

  lemma {:induction false} SubsequenceSelf<T>(y: seq<T>)
    ensures Subsequence(y, y) && Subsequence([], y)
    decreases |y|
  {
    if y != [] {
      SubsequenceSelf(y[..|y| - 1]);
    }
  }

  lemma {:induction false} SubsequenceFacts<T>(x: seq<T>, y: seq<T>)
    requires Subsequence(x, y)
    ensures |x| <= |y| && forall e :: e in x ==> e in y
    decreases |y|
  {
    if y != [] {
      var l := |y| - 1;
      if Subsequence(x, y[..l]) {
        SubsequenceFacts(x, y[..l]);
      } else {
        SubsequenceFacts(x[..|x| - 1], y[..l]);
        assert x == x[..|x| - 1] + [y[l]];
      }
    }
  }

  lemma {:induction false} SubsequenceConcat<T>(a: seq<T>, x: seq<T>, b: seq<T>, y: seq<T>)
    requires Subsequence(a, x) && Subsequence(b, y)
    ensures Subsequence(a + b, x + y)
    decreases |y|
  {
    if y == [] {
      assert a + b == a && x + y == x;
    } else {
      var l := |y| - 1;
      assert (x + y)[..|x + y| - 1] == x + y[..l];
      if Subsequence(b, y[..l]) {
        SubsequenceConcat(a, x, b, y[..l]);
      } else {
        SubsequenceConcat(a, x, b[..|b| - 1], y[..l]);
        assert (a + b)[..|a + b| - 1] == a + b[..|b| - 1];
      }
    }
  }
}
