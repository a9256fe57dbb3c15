/** Sums of a natural weight over a sequence.

    The protocol modules keep one program counter per thread in a sequence of any length; what the
    threads hold together (references, tickets, permits) is such a sum. */
module Sums {

  function Total<T>(s: seq<T>, w: T -> nat): nat {
    if s == [] then 0 else w(s[0]) + Total(s[1..], w)
  }

  lemma {:induction false} TotalUpdate<T>(s: seq<T>, w: T -> nat, i: nat, x: T)
    requires i < |s|
    ensures Total(s[i := x], w) + w(s[i]) == Total(s, w) + w(x)
  {
    if i == 0 {
      assert s[i := x][1..] == s[1..];
    } else {
      assert s[i := x][1..] == s[1..][i - 1 := x];
      TotalUpdate(s[1..], w, i - 1, x);
    }
  }

  lemma {:induction false} TotalAppend<T>(s: seq<T>, w: T -> nat, x: T)
    ensures Total(s + [x], w) == Total(s, w) + w(x)
  {
    if s != [] {
      assert (s + [x])[1..] == s[1..] + [x];
      TotalAppend(s[1..], w, x);
    }
  }

  lemma {:induction false} TotalMember<T>(s: seq<T>, w: T -> nat, i: nat)
    requires i < |s|
    ensures w(s[i]) <= Total(s, w)
  {
    if i > 0 {
      TotalMember(s[1..], w, i - 1);
    }
  }

  lemma {:induction false} TotalPair<T>(s: seq<T>, w: T -> nat, i: nat, j: nat)
    requires i < |s| && j < |s| && i != j
    ensures w(s[i]) + w(s[j]) <= Total(s, w)
  {
    if i == 0 {
      TotalMember(s[1..], w, j - 1);
    } else if j == 0 {
      TotalMember(s[1..], w, i - 1);
    } else {
      TotalPair(s[1..], w, i - 1, j - 1);
    }
  }

  lemma {:induction false} TotalZero<T>(s: seq<T>, w: T -> nat)
    requires forall i :: 0 <= i < |s| ==> w(s[i]) == 0
    ensures Total(s, w) == 0
  {
    if s != [] {
      assert w(s[0]) == 0;
      assert forall i :: 0 <= i < |s[1..]| ==> s[1..][i] == s[i + 1];
      TotalZero(s[1..], w);
    }
  }

  /** A positive sum has a positive term. */
  lemma {:induction false} TotalPositive<T>(s: seq<T>, w: T -> nat) returns (i: nat)
    requires Total(s, w) > 0
    ensures i < |s| && w(s[i]) > 0
  {
    if w(s[0]) > 0 {
      i := 0;
    } else {
      i := TotalPositive(s[1..], w);
      i := i + 1;
    }
  }

  lemma {:induction false} TotalBound<T>(s: seq<T>, w: T -> nat)
    requires forall i :: 0 <= i < |s| ==> w(s[i]) <= 1
    ensures Total(s, w) <= |s|
  {
    if s != [] {
      assert forall i :: 0 <= i < |s[1..]| ==> s[1..][i] == s[i + 1];
      TotalBound(s[1..], w);
    }
  }
}
