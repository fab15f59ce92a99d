/** Counting, weighing, finding and comparing the elements of a sequence. */
module Sequences {

  predicate Distinct(s: seq<int>) {
    forall a, b :: 0 <= a < b < |s| ==> s[a] != s[b]
  }

  function Count<T>(s: seq<T>, p: T -> bool): nat {
    if s == [] then 0 else (if p(s[0]) then 1 else 0) + Count(s[1..], p)
  }

  /** Replacing one element changes the count by what that element contributes. */
  lemma {:induction false} CountUpdate<T>(s: seq<T>, p: T -> bool, i: nat, x: T)
    requires i < |s|
    ensures Count(s[i := x], p) == Count(s, p) - (if p(s[i]) then 1 else 0) + (if p(x) then 1 else 0)
  {
    if i == 0 {
      assert s[i := x][1..] == s[1..];
    } else {
      assert s[i := x][1..] == s[1..][i - 1 := x];
      CountUpdate(s[1..], p, i - 1, x);
    }
  }

  /** Sequences that agree on p position by position have the same count. */
  lemma {:induction false} CountSame<T>(s: seq<T>, t: seq<T>, p: T -> bool)
    requires |s| == |t|
    requires forall i :: 0 <= i < |s| ==> p(s[i]) == p(t[i])
    ensures Count(s, p) == Count(t, p)
  {
    if s != [] {
      CountSame(s[1..], t[1..], p);
    }
  }

  lemma {:induction false} CountNone<T>(s: seq<T>, p: T -> bool)
    requires forall i :: 0 <= i < |s| ==> !p(s[i])
    ensures Count(s, p) == 0
  {
    if s != [] {
      CountNone(s[1..], p);
    }
  }

  lemma {:induction false} CountPositive<T>(s: seq<T>, p: T -> bool, i: nat)
    requires i < |s| && p(s[i])
    ensures Count(s, p) >= 1
  {
    if i > 0 {
      CountPositive(s[1..], p, i - 1);
    }
  }

  /** Two positions that satisfy p make the count at least two. */
  lemma {:induction false} CountTwo<T>(s: seq<T>, p: T -> bool, i: nat, j: nat)
    requires i < j < |s| && p(s[i]) && p(s[j])
    ensures Count(s, p) >= 2
  {
    if i == 0 {
      CountPositive(s[1..], p, j - 1);
    } else {
      CountTwo(s[1..], p, i - 1, j - 1);
    }
  }

  lemma {:induction false} CountConstant<T>(n: nat, x: T, p: T -> bool)
    ensures Count(seq(n, _ => x), p) == if p(x) then n else 0
  {
    if n > 0 {
      assert seq(n, _ => x)[1..] == seq(n - 1, _ => x);
      CountConstant(n - 1, x, p);
    }
  }

  /** The first position from `from` on whose element satisfies p, or -1. */
  function First<T>(s: seq<T>, p: T -> bool, from: nat := 0): (i: int)
    requires from <= |s|
    ensures i == -1 <==> forall j :: from <= j < |s| ==> !p(s[j])
    ensures i != -1 ==> from <= i < |s| && p(s[i]) && forall j :: from <= j < i ==> !p(s[j])
    decreases |s| - from
  {
    if from == |s| then -1 else if p(s[from]) then from else First(s, p, from + 1)
  }

  /** The positions from `from` on whose elements satisfy p, in order. */
  function Where<T>(s: seq<T>, p: T -> bool, from: nat := 0): (r: seq<nat>)
    requires from <= |s|
    ensures forall i :: i in r <==> from <= i < |s| && p(s[i])
    ensures forall a, b :: 0 <= a < b < |r| ==> r[a] < r[b]
    decreases |s| - from
  {
    if from == |s| then []
    else
      var rest := Where(s, p, from + 1);
      assert forall b :: 0 <= b < |rest| ==> rest[b] in rest;
      if p(s[from]) then [from] + rest else rest
  }

  /** The sum of a weight over the elements of a sequence. */
  function Total<T>(s: seq<T>, weight: T -> nat): nat {
    if s == [] then 0 else weight(s[0]) + Total(s[1..], weight)
  }

  lemma {:induction false} TotalUpdate<T>(s: seq<T>, weight: T -> nat, i: nat, x: T)
    requires i < |s|
    ensures Total(s[i := x], weight) == Total(s, weight) - weight(s[i]) + weight(x)
  {
    if i == 0 {
      assert s[i := x][1..] == s[1..];
    } else {
      assert s[i := x][1..] == s[1..][i - 1 := x];
      TotalUpdate(s[1..], weight, i - 1, x);
    }
  }

  lemma {:induction false} TotalBound<T>(s: seq<T>, weight: T -> nat, bound: nat)
    requires forall i :: 0 <= i < |s| ==> weight(s[i]) <= bound
    ensures Total(s, weight) <= bound * |s|
  {
    if s != [] {
      TotalBound(s[1..], weight, bound);
      assert bound * |s| == bound + bound * |s[1..]|;
    }
  }
}
