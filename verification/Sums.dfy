/** Sums over finite sets of names, and sizes of finite sets. */
module Sums {
  ghost function SetSum(s: set<string>, f: string -> int): int {
    if s == {} then 0 else var x := Pick(s); f(x) + SetSum(s - {x}, f)
  }

  ghost function Pick(s: set<string>): (x: string)
    requires s != {}
    ensures x in s
  {
    var x :| x in s; x
  }

  /** Any element may be taken out first. */
  lemma {:induction false} SetSumTakeOut(s: set<string>, f: string -> int, x: string)
    requires x in s
    ensures SetSum(s, f) == f(x) + SetSum(s - {x}, f)
    decreases |s|
  {
    var y := Pick(s);
    if y != x {
      SetSumTakeOut(s - {y}, f, x);
      SetSumTakeOut(s - {x}, f, y);
      assert s - {y} - {x} == s - {x} - {y};
    }
  }

  lemma {:induction false} SetSumEqual(s: set<string>, f: string -> int, g: string -> int)
    requires forall x :: x in s ==> f(x) == g(x)
    ensures SetSum(s, f) == SetSum(s, g)
    decreases |s|
  {
    if s != {} {
      SetSumEqual(s - {Pick(s)}, f, g);
    }
  }

  /** Raising f by e at one point raises the sum by e when the point is in the set, and not otherwise. */
  lemma {:induction false} SetSumRaise(s: set<string>, f: string -> int, g: string -> int, at: string, e: int)
    requires forall x :: x in s ==> g(x) == f(x) + if x == at then e else 0
    ensures SetSum(s, g) == SetSum(s, f) + if at in s then e else 0
  {
    if at in s {
      SetSumTakeOut(s, f, at);
      SetSumTakeOut(s, g, at);
      SetSumEqual(s - {at}, f, g);
    } else {
      SetSumEqual(s, f, g);
    }
  }

  lemma {:induction false} SetSumZero(s: set<string>, f: string -> int)
    requires forall x :: x in s ==> f(x) == 0
    ensures SetSum(s, f) == 0
    decreases |s|
  {
    if s != {} {
      SetSumZero(s - {Pick(s)}, f);
    }
  }

  lemma SubsetSize<T>(small: set<T>, big: set<T>)
    requires small <= big
    ensures |small| <= |big|
  {
    assert big == small + (big - small);
  }

  lemma SubsetOfSameSize<T>(small: set<T>, big: set<T>)
    requires small <= big && |small| == |big|
    ensures small == big
  {
    assert big == small + (big - small);
    assert |big - small| == 0;
  }
}
