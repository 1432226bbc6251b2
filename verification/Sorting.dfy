/** Byte-wise string order and the contract of Go's sort package: some sorted permutation. */
module Sorting {
  predicate Leq(a: string, b: string) {
    a == [] || (b != [] && (a[0] < b[0] || (a[0] == b[0] && Leq(a[1..], b[1..]))))
  }

  lemma LeqTotal(a: string, b: string)
    ensures Leq(a, b) || Leq(b, a)
  {
  }

  lemma {:induction false} LeqTransitive(a: string, b: string, c: string)
    requires Leq(a, b) && Leq(b, c)
    ensures Leq(a, c)
  {
    if a != [] && a[0] == b[0] == c[0] {
      LeqTransitive(a[1..], b[1..], c[1..]);
    }
  }

  lemma {:induction false} LeqAntisymmetric(a: string, b: string)
    requires Leq(a, b) && Leq(b, a)
    ensures a == b
  {
    if a != [] {
      LeqAntisymmetric(a[1..], b[1..]);
      assert a == [a[0]] + a[1..] && b == [b[0]] + b[1..];
    }
  }

  predicate Sorted<T>(s: seq<T>, key: T -> string) {
    forall i, j :: 0 <= i < j < |s| ==> Leq(key(s[i]), key(s[j]))
  }

  /** Insertion sort; stands for sort.Slice and sort.Strings, of which only this contract is used. */
  method Sort<T(==)>(s: seq<T>, key: T -> string) returns (r: seq<T>)
    ensures multiset(r) == multiset(s)
    ensures Sorted(r, key)
  {
    r := [];
    for n := 0 to |s|
      invariant multiset(r) == multiset(s[..n])
      invariant Sorted(r, key)
    {
      assert s[..n + 1] == s[..n] + [s[n]];
      r := Insert(r, s[n], key);
    }
    assert s[..|s|] == s;
  }

  method Insert<T(==)>(s: seq<T>, x: T, key: T -> string) returns (r: seq<T>)
    requires Sorted(s, key)
    ensures multiset(r) == multiset(s) + multiset{x}
    ensures Sorted(r, key)
  {
    var i := |s|;
    while i > 0 && !Leq(key(s[i - 1]), key(x))
      invariant 0 <= i <= |s|
      invariant forall j :: i <= j < |s| ==> Leq(key(x), key(s[j]))
    {
      LeqTotal(key(s[i - 1]), key(x));
      i := i - 1;
    }
    forall j | 0 <= j < i ensures Leq(key(s[j]), key(x)) {
      if j < i - 1 { LeqTransitive(key(s[j]), key(s[i - 1]), key(x)); }
    }
    assert s == s[..i] + s[i..];
    InsertKeepsSorted(s, x, key, i);
    r := s[..i] + [x] + s[i..];
  }

  lemma InsertKeepsSorted<T>(s: seq<T>, x: T, key: T -> string, i: nat)
    requires i <= |s| && Sorted(s, key)
    requires forall j :: 0 <= j < i ==> Leq(key(s[j]), key(x))
    requires forall j :: i <= j < |s| ==> Leq(key(x), key(s[j]))
    ensures Sorted(s[..i] + [x] + s[i..], key)
  {
    var r := s[..i] + [x] + s[i..];
    forall p, q | 0 <= p < q < |r| ensures Leq(key(r[p]), key(r[q])) {
      var a, b := if p < i then p else p - 1, if q < i then q else q - 1;
      assert p != i ==> r[p] == s[a];
      assert q != i ==> r[q] == s[b];
    }
  }

  /** Ordered from the head: every string is at most everything after it. */
  predicate Ordered(s: seq<string>) {
    s == [] || ((forall x :: x in s[1..] ==> Leq(s[0], x)) && Ordered(s[1..]))
  }

  lemma {:induction false} SortedIsOrdered(s: seq<string>)
    requires Sorted(s, (x: string) => x)
    ensures Ordered(s)
  {
    if s != [] {
      forall i, j | 0 <= i < j < |s[1..]| ensures Leq(s[1..][i], s[1..][j]) {
        assert Leq(s[i + 1], s[j + 1]);
      }
      SortedIsOrdered(s[1..]);
    }
  }

  lemma {:induction false} LeastExists(s: set<string>)
    requires s != {}
    ensures exists m :: m in s && forall x :: x in s ==> Leq(m, x)
  {
    var a :| a in s;
    var rest := s - {a};
    LeqTotal(a, a);
    if rest == {} {
      assert s == {a};
      assert forall x :: x in s ==> Leq(a, x);
    } else {
      LeastExists(rest);
      var m :| m in rest && forall x :: x in rest ==> Leq(m, x);
      LeqTotal(a, m);
      var least := if Leq(a, m) then a else m;
      forall x | x in s ensures Leq(least, x) {
        if x != a && least == a { LeqTransitive(a, m, x); }
      }
    }
  }

  ghost function Least(s: set<string>): (m: string)
    requires s != {}
    ensures m in s && forall x :: x in s ==> Leq(m, x)
  {
    LeastExists(s);
    var m :| m in s && forall x :: x in s ==> Leq(m, x);
    m
  }

  /** The sorted listing of a set of strings. */
  ghost function SortedKeys(s: set<string>): seq<string> {
    if s == {} then [] else [Least(s)] + SortedKeys(s - {Least(s)})
  }

  /** Any ordered listing of a set is the sorted one, so iteration order cannot show in it. */
  lemma {:induction false} OrderedIsUnique(a: seq<string>, s: set<string>)
    requires Ordered(a) && multiset(a) == multiset(s)
    ensures a == SortedKeys(s)
  {
    if a == [] {
      assert multiset(s) == multiset{};
      assert forall x :: x in s ==> x in multiset(s);
    } else {
      assert a == [a[0]] + a[1..];
      assert a[0] in multiset(a) && a[0] in s;
      var m := Least(s);
      assert m in multiset(s) && m in a;
      if m != a[0] {
        assert m in a[1..];
        LeqAntisymmetric(a[0], m);
      }
      assert multiset(a[1..]) == multiset(a) - multiset{m};
      assert multiset(s - {m}) == multiset(s) - multiset{m};
      OrderedIsUnique(a[1..], s - {m});
    }
  }
}
