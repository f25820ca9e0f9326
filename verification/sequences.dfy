/** Generic facts about sequences, and Python's prefix slice `s[:n]`. */
module Sequences {

  /** No element occurs twice. */
  predicate Distinct<T(==)>(s: seq<T>) {
    forall i, j :: 0 <= i < j < |s| ==> s[i] != s[j]
  }

  /** The position of the first occurrence of `x` in `s`. */
  function IndexOf<T(==)>(s: seq<T>, x: T): (i: nat)
    requires x in s
    ensures i < |s| && s[i] == x
    ensures forall j :: 0 <= j < i ==> s[j] != x
  {
    if s[0] == x then 0 else 1 + IndexOf(s[1..], x)
  }

  lemma {:induction false} IndexOfAppend<T>(s: seq<T>, t: seq<T>, x: T)
    requires x in s + t
    ensures x in s ==> IndexOf(s + t, x) == IndexOf(s, x)
    ensures x !in s ==> IndexOf(s + t, x) == |s| + IndexOf(t, x)
  {
    if s != [] {
      assert (s + t)[0] == s[0];
      if s[0] != x {
        assert (s + t)[1..] == s[1..] + t;
        IndexOfAppend(s[1..], t, x);
      }
    } else {
      assert s + t == t;
    }
  }

  /** `sub` occurs as a contiguous run inside `s`. */
  ghost predicate IsInfix<T>(sub: seq<T>, s: seq<T>) {
    exists i :: InfixAt(sub, s, i)
  }

  /** `sub` occurs inside `s` starting at position `i`. */
  predicate InfixAt<T(==)>(sub: seq<T>, s: seq<T>, i: int) {
    0 <= i <= |s| - |sub| && s[i..i + |sub|] == sub
  }

  predicate IsPrefix<T(==)>(pre: seq<T>, s: seq<T>) {
    |pre| <= |s| && s[..|pre|] == pre
  }

  predicate EndsWith<T(==)>(s: seq<T>, suffix: seq<T>) {
    |suffix| <= |s| && s[|s| - |suffix|..] == suffix
  }

  lemma InfixOfConcat<T>(a: seq<T>, b: seq<T>, c: seq<T>)
    ensures IsInfix(b, a + b + c)
  {
    var s := a + b + c;
    assert s[|a|..|a| + |b|] == b;
    assert InfixAt(b, s, |a|);
  }

  /** The middle parts of a five-part concatenation occur in it. */
  lemma InfixOfFive<T>(a: seq<T>, b: seq<T>, c: seq<T>, d: seq<T>, e: seq<T>)
    ensures IsInfix(b, a + b + c + d + e)
    ensures IsInfix(c + d, a + b + c + d + e)
  {
    InfixOfConcat(a, b, c + d + e);
    assert a + b + (c + d + e) == a + b + c + d + e;
    InfixOfConcat(a + b, c + d, e);
    assert a + b + (c + d) + e == a + b + c + d + e;
  }

  /** In a six-part concatenation the second and fourth parts occur, and the
      last part ends it. */
  lemma InfixOfSix<T>(a: seq<T>, b: seq<T>, c: seq<T>, d: seq<T>, e: seq<T>, f: seq<T>)
    ensures IsInfix(b, a + b + c + d + e + f)
    ensures IsInfix(d, a + b + c + d + e + f)
    ensures EndsWith(a + b + c + d + e + f, f)
  {
    InfixOfConcat(a, b, c + d + e + f);
    assert a + b + (c + d + e + f) == a + b + c + d + e + f;
    InfixOfConcat(a + b + c, d, e + f);
    assert a + b + c + d + (e + f) == a + b + c + d + e + f;
  }

  lemma InfixOfSuffix<T>(t: seq<T>, s: seq<T>, k: nat)
    requires k <= |s| && IsInfix(t, s[k..])
    ensures IsInfix(t, s)
  {
    var i :| InfixAt(t, s[k..], i);
    assert s[k + i..k + i + |t|] == s[k..][i..i + |t|];
    assert InfixAt(t, s, k + i);
  }

  /** Every element of an infix is an element of the whole. */
  lemma InfixElements<T>(t: seq<T>, s: seq<T>, j: nat)
    requires IsInfix(t, s) && j < |t|
    ensures t[j] in s
  {
    var i :| InfixAt(t, s, i);
    assert t[j] == s[i + j];
  }

  /** The length that Python's slice `s[:n]` keeps from a sequence of length `len`:
      a negative `n` counts from the end, and the result is clamped to `0..len`. */
  function PrefixLength(len: nat, n: int): (k: nat)
    ensures k <= len
  {
    if n >= 0 then (if n <= len then n else len)
    else if len + n >= 0 then len + n
    else 0
  }

  /** Python's slice `s[:n]`. */
  function TakePrefix<T>(s: seq<T>, n: int): (r: seq<T>)
    ensures |r| <= |s| && r == s[..|r|]
    ensures 0 <= n ==> |r| == if n <= |s| then n else |s|
    ensures n < 0 ==> |r| == if |s| + n >= 0 then |s| + n else 0
  {
    s[..PrefixLength(|s|, n)]
  }
}
