/** String helpers shared by the model: ASCII digits, ASCII lower-casing,
    prefix and substring tests, as Python's `str.isdigit`, `str.lower`,
    `str.startswith` and `in` are used on the inputs the bot sees. */
module Text {

  predicate IsDigit(c: char) {
    '0' <= c <= '9'
  }

  /** `''.join(filter(str.isdigit, s))` */
  function Digits(s: string): (r: string)
    ensures |r| <= |s|
    ensures forall i :: 0 <= i < |r| ==> IsDigit(r[i])
    ensures (forall i :: 0 <= i < |s| ==> IsDigit(s[i])) ==> r == s
  {
    if s == [] then []
    else if IsDigit(s[0]) then [s[0]] + Digits(s[1..])
    else Digits(s[1..])
  }

  lemma {:induction false} DigitsAppend(a: string, b: string)
    ensures Digits(a + b) == Digits(a) + Digits(b)
  {
    if a == [] {
      assert a + b == b;
    } else {
      assert (a + b)[1..] == a[1..] + b;
      DigitsAppend(a[1..], b);
    }
  }

  function LowerChar(c: char): char {
    if 'A' <= c <= 'Z' then (c as int + 32) as char else c
  }

  /** `s.lower()` on ASCII letters. */
  function Lower(s: string): (r: string)
    ensures |r| == |s|
    ensures forall i :: 0 <= i < |s| ==> r[i] == LowerChar(s[i])
  {
    if s == [] then [] else [LowerChar(s[0])] + Lower(s[1..])
  }

  predicate StartsWith(s: string, prefix: string) {
    |prefix| <= |s| && s[..|prefix|] == prefix
  }

  /** Python's `sub in s`: `sub` occurs at some position of `s`. */
  predicate Contains(s: string, sub: string)
    decreases |s|
  {
    StartsWith(s, sub) || (|s| > 0 && Contains(s[1..], sub))
  }

  lemma {:induction false} ContainsSuffix(a: string, sub: string)
    ensures Contains(a + sub, sub)
  {
    if a == [] {
      assert a + sub == sub;
    } else {
      assert (a + sub)[1..] == a[1..] + sub;
      ContainsSuffix(a[1..], sub);
    }
  }

  /** An occurrence of `sub` in `b` is still one after a prefix is put in front. */
  lemma {:induction false} ContainsAfterPrefix(a: string, b: string, sub: string)
    requires Contains(b, sub)
    ensures Contains(a + b, sub)
    decreases |a|
  {
    if a == [] {
      assert a + b == b;
    } else {
      assert (a + b)[1..] == a[1..] + b;
      ContainsAfterPrefix(a[1..], b, sub);
    }
  }

  /** A string in which some character of `sub` never occurs does not contain `sub`. */
  lemma {:induction false} NotContainsChar(s: string, sub: string, k: int)
    requires 0 <= k < |sub|
    requires forall j :: 0 <= j < |s| ==> s[j] != sub[k]
    ensures !Contains(s, sub)
    decreases |s|
  {
    assert !StartsWith(s, sub) by {
      if |sub| <= |s| { assert s[..|sub|][k] == s[k]; }
    }
    if |s| > 0 {
      NotContainsChar(s[1..], sub, k);
    }
  }

  /** A string shorter than `sub` does not contain it. */
  lemma {:induction false} ShortNotContains(s: string, sub: string)
    requires |s| < |sub|
    ensures !Contains(s, sub)
    decreases |s|
  {
    if |s| > 0 {
      ShortNotContains(s[1..], sub);
    }
  }

  /** If the first character of `sub` never occurs in `a`, every occurrence
      of `sub` in `a + b` lies inside `b`. */
  lemma {:induction false} NotContainsSplit(a: string, b: string, sub: string)
    requires |sub| > 0
    requires forall j :: 0 <= j < |a| ==> a[j] != sub[0]
    requires !Contains(b, sub)
    ensures !Contains(a + b, sub)
    decreases |a|
  {
    if a == [] {
      assert a + b == b;
    } else {
      assert (a + b)[0] == a[0];
      assert !StartsWith(a + b, sub) by {
        if |sub| <= |a + b| { assert (a + b)[..|sub|][0] == (a + b)[0]; }
      }
      assert (a + b)[1..] == a[1..] + b;
      NotContainsSplit(a[1..], b, sub);
    }
  }
}
