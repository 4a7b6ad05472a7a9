/** Sums of a natural-number measure over the elements of a sequence.  The
    state machines of this project use them for termination measures and for
    counting semaphore holders. */
module Counting {

  function Total<T>(f: T -> nat, s: seq<T>): nat {
    if s == [] then 0 else f(s[0]) + Total(f, s[1..])
  }

  /** Replacing one element changes the sum by the difference of the two measures. */
  lemma {:induction false} TotalUpdate<T>(f: T -> nat, s: seq<T>, i: nat, x: T)
    requires i < |s|
    ensures Total(f, s[i := x]) + f(s[i]) == Total(f, s) + f(x)
  {
    if i == 0 {
      assert s[i := x][1..] == s[1..];
    } else {
      assert s[i := x][1..] == s[1..][i - 1 := x];
      TotalUpdate(f, s[1..], i - 1, x);
    }
  }

  lemma {:induction false} TotalAppend<T>(f: T -> nat, s: seq<T>, t: seq<T>)
    ensures Total(f, s + t) == Total(f, s) + Total(f, t)
  {
    if s == [] {
      assert s + t == t;
    } else {
      assert (s + t)[1..] == s[1..] + t;
      TotalAppend(f, s[1..], t);
    }
  }

  lemma {:induction false} TotalConstant<T>(f: T -> nat, s: seq<T>, c: nat)
    requires forall i :: 0 <= i < |s| ==> f(s[i]) == c
    ensures Total(f, s) == c * |s|
  {
    if s != [] {
      TotalConstant(f, s[1..], c);
    }
  }

  /** A positive sum has a positive summand. */
  lemma {:induction false} TotalPositive<T>(f: T -> nat, s: seq<T>) returns (i: nat)
    requires Total(f, s) > 0
    ensures i < |s| && f(s[i]) > 0
  {
    if f(s[0]) > 0 {
      i := 0;
    } else {
      var j := TotalPositive(f, s[1..]);
      i := j + 1;
    }
  }

  /** Any summand is bounded by the sum. */
  lemma {:induction false} TotalAtLeast<T>(f: T -> nat, s: seq<T>, i: nat)
    requires i < |s|
    ensures f(s[i]) <= Total(f, s)
  {
    if i > 0 {
      TotalAtLeast(f, s[1..], i - 1);
    }
  }
}
