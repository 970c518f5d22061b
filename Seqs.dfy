/** Order-preserving selection from a list, as built by appending inside a
    loop or a run of `if`s. */
module Seqs {

  /** `r` is `s` with some elements left out, the rest in their order. */
  predicate Subsequence<T(==)>(r: seq<T>, s: seq<T>)
    decreases |s|
  {
    if r == [] then true
    else if s == [] then false
    else (r[|r| - 1] == s[|s| - 1] && Subsequence(r[..|r| - 1], s[..|s| - 1]))
         || Subsequence(r, s[..|s| - 1])
  }

  lemma AppendAssociative<T>(a: seq<T>, b: seq<T>, c: seq<T>)
    ensures (a + b) + c == a + (b + c)
  {
  }

  predicate Distinct<T(==)>(s: seq<T>) {
    forall i, j :: 0 <= i < j < |s| ==> s[i] != s[j]
  }

  lemma {:induction false} SubsequenceFacts<T>(r: seq<T>, s: seq<T>)
    requires Subsequence(r, s)
    ensures |r| <= |s|
    ensures forall x :: x in r ==> x in s
    ensures Distinct(s) ==> Distinct(r)
    decreases |s|
  {
    if r != [] {
      var s' := s[..|s| - 1];
      if r[|r| - 1] == s[|s| - 1] && Subsequence(r[..|r| - 1], s') {
        var r' := r[..|r| - 1];
        SubsequenceFacts(r', s');
        assert r == r' + [s[|s| - 1]];
        forall x | x in r ensures x in s {
          if x in r' { assert x in s'; }
        }
        if Distinct(s) {
          assert forall x :: x in r' ==> x in s';
          assert forall i :: 0 <= i < |s'| ==> s'[i] != s[|s| - 1];
          forall i, j | 0 <= i < j < |r| ensures r[i] != r[j] {
            if j == |r| - 1 { assert r[i] in r'; } else { assert r[i] == r'[i] && r[j] == r'[j]; }
          }
        }
      } else {
        SubsequenceFacts(r, s');
        if Distinct(s) {
          assert Distinct(s');
        }
      }
    }
  }

  /** The elements among the first `n` of `xs` whose flag is set, in order. */
  function SelectedUpTo<T>(flags: seq<bool>, xs: seq<T>, n: nat): (r: seq<T>)
    requires |flags| == |xs| && n <= |xs|
    ensures |r| <= n
  {
    if n == 0 then []
    else SelectedUpTo(flags, xs, n - 1) + if flags[n - 1] then [xs[n - 1]] else []
  }

  /** The elements of `xs` whose flag is set, in order. */
  function Selected<T>(flags: seq<bool>, xs: seq<T>): (r: seq<T>)
    requires |flags| == |xs|
    ensures |r| <= |xs|
  {
    SelectedUpTo(flags, xs, |xs|)
  }

  lemma {:induction false} SelectedUpToSubsequence<T>(flags: seq<bool>, xs: seq<T>, n: nat)
    requires |flags| == |xs| && n <= |xs|
    ensures Subsequence(SelectedUpTo(flags, xs, n), xs[..n])
  {
    if n > 0 {
      var init := SelectedUpTo(flags, xs, n - 1);
      SelectedUpToSubsequence(flags, xs, n - 1);
      assert xs[..n][..n - 1] == xs[..n - 1];
      if flags[n - 1] {
        assert SelectedUpTo(flags, xs, n)[..|SelectedUpTo(flags, xs, n)| - 1] == init;
      } else {
        assert SelectedUpTo(flags, xs, n) == init;
        assert init == [] || Subsequence(init, xs[..n - 1]);
      }
    }
  }

  /** What is selected is a subsequence. */
  lemma SelectedSubsequence<T>(flags: seq<bool>, xs: seq<T>)
    requires |flags| == |xs|
    ensures Subsequence(Selected(flags, xs), xs)
  {
    SelectedUpToSubsequence(flags, xs, |xs|);
    assert xs[..|xs|] == xs;
  }

  /** With distinct elements, one of the first `n` is selected exactly when its flag is set. */
  lemma {:induction false} SelectedUpToExactly<T>(flags: seq<bool>, xs: seq<T>, n: nat, i: int)
    requires |flags| == |xs| && Distinct(xs) && 0 <= i < |xs| && n <= |xs|
    ensures xs[i] in SelectedUpTo(flags, xs, n) <==> i < n && flags[i]
  {
    if n > 0 {
      SelectedUpToExactly(flags, xs, n - 1, i);
    }
  }

  /** With distinct elements, an element is selected exactly when its flag is set. */
  lemma SelectedExactly<T>(flags: seq<bool>, xs: seq<T>, i: int)
    requires |flags| == |xs| && Distinct(xs) && 0 <= i < |xs|
    ensures xs[i] in Selected(flags, xs) <==> flags[i]
  {
    SelectedUpToExactly(flags, xs, |xs|, i);
  }
}
