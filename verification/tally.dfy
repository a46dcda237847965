/**
 Sums of a weight over the elements of a sequence.
 */
module Tally {

  function Sum<T>(weight: T -> nat, s: seq<T>): nat {
    if s == [] then 0 else weight(s[0]) + Sum(weight, s[1..])
  }

  lemma {:induction false} SumUpdate<T>(weight: T -> nat, s: seq<T>, i: nat, x: T)
    requires i < |s|
    ensures Sum(weight, s) >= weight(s[i])
    ensures Sum(weight, s[i := x]) == Sum(weight, s) - weight(s[i]) + weight(x)
  {
    if i == 0 {
      assert s[i := x][1..] == s[1..];
    } else {
      SumUpdate(weight, s[1..], i - 1, x);
      assert s[i := x][1..] == s[1..][i - 1 := x];
    }
  }

  lemma {:induction false} SumSame<T>(weight: T -> nat, s: seq<T>, r: seq<T>)
    requires |s| == |r| && forall i :: 0 <= i < |s| ==> weight(s[i]) == weight(r[i])
    ensures Sum(weight, s) == Sum(weight, r)
  {
    if s != [] {
      SumSame(weight, s[1..], r[1..]);
    }
  }

  lemma {:induction false} SumUniform<T>(weight: T -> nat, s: seq<T>, c: nat)
    requires forall i :: 0 <= i < |s| ==> weight(s[i]) == c
    ensures Sum(weight, s) == c * |s|
  {
    if s != [] {
      SumUniform(weight, s[1..], c);
    }
  }

  lemma {:induction false} SumAtMost<T>(weight: T -> nat, s: seq<T>)
    requires forall i :: 0 <= i < |s| ==> weight(s[i]) <= 1
    ensures Sum(weight, s) <= |s|
  {
    if s != [] {
      SumAtMost(weight, s[1..]);
    }
  }

  lemma {:induction false} SumPositive<T>(weight: T -> nat, s: seq<T>) returns (i: nat)
    requires Sum(weight, s) > 0
    ensures i < |s| && weight(s[i]) > 0
  {
    if weight(s[0]) > 0 {
      i := 0;
    } else {
      i := SumPositive(weight, s[1..]);
      i := i + 1;
    }
  }

  lemma {:induction false} SumPlus<T>(f: T -> nat, g: T -> nat, both: T -> nat, s: seq<T>)
    requires forall i :: 0 <= i < |s| ==> both(s[i]) == f(s[i]) + g(s[i])
    ensures Sum(both, s) == Sum(f, s) + Sum(g, s)
  {
    if s != [] {
      SumPlus(f, g, both, s[1..]);
    }
  }
}
