/** Sequences without repetition, without some elements, and summed. */
module Sequences {

  ghost predicate Distinct<T>(s: seq<T>) {
    forall i, j | 0 <= i < j < |s| :: s[i] != s[j]
  }

  function Kept<T(==)>(x: T, drop: set<T>): seq<T> {
    if x in drop then [] else [x]
  }

  function Without<T(==, !new)>(s: seq<T>, drop: set<T>): (r: seq<T>)
    ensures forall x :: x in r <==> x in s && x !in drop
  {
    if s == [] then [] else Kept(s[0], drop) + Without(s[1..], drop)
  }

  lemma {:induction false} WithoutSnoc<T(!new)>(s: seq<T>, x: T, drop: set<T>)
    ensures Without(s + [x], drop) == Without(s, drop) + Kept(x, drop)
  {
    if s == [] {
      assert s + [x] == [x];
    } else {
      WithoutSnoc(s[1..], x, drop);
      assert (s + [x])[1..] == s[1..] + [x];
      Associative(Kept(s[0], drop), Without(s[1..], drop), Kept(x, drop));
    }
  }

  lemma PrefixSnoc<T>(s: seq<T>, i: nat)
    requires i < |s|
    ensures s[..i + 1] == s[..i] + [s[i]]
  {
  }

  lemma Associative<T>(a: seq<T>, b: seq<T>, c: seq<T>)
    ensures a + (b + c) == a + b + c
  {
  }

  lemma {:induction false} WithoutNone<T(!new)>(s: seq<T>, drop: set<T>)
    requires forall x | x in s :: x !in drop
    ensures Without(s, drop) == s
  {
    if s != [] {
      WithoutNone(s[1..], drop);
    }
  }

  lemma WithoutTwice<T(!new)>(s: seq<T>, drop: set<T>)
    ensures Without(Without(s, drop), drop) == Without(s, drop)
  {
    WithoutNone(Without(s, drop), drop);
  }

  function Total<T>(rank: T -> nat, s: seq<T>): nat {
    if s == [] then 0 else rank(s[0]) + Total(rank, s[1..])
  }

  lemma {:induction false} TotalUpdate<T>(rank: T -> nat, s: seq<T>, i: nat, x: T)
    requires i < |s|
    ensures Total(rank, s[i := x]) + rank(s[i]) == Total(rank, s) + rank(x)
  {
    if i > 0 {
      TotalUpdate(rank, s[1..], i - 1, x);
      assert s[i := x][1..] == s[1..][i - 1 := x];
    } else {
      assert s[i := x][1..] == s[1..];
    }
  }
}
