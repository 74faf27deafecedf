/** Sums of bags of tickets over sequences. */
module Totals {
  import opened Common
  import opened Records

  function Total<T>(f: T -> multiset<Ticket>, s: seq<T>): multiset<Ticket> {
    if s == [] then multiset{} else Total(f, Front(s)) + f(Last(s))
  }

  lemma TotalNothing<T>(f: T -> multiset<Ticket>)
    ensures Total(f, []) == multiset{}
  {
  }

  lemma TotalOne<T>(f: T -> multiset<Ticket>, x: T)
    ensures Total(f, [x]) == f(x)
  {
    assert Front([x]) == [];
  }

  lemma {:induction false} TotalConcat<T>(f: T -> multiset<Ticket>, a: seq<T>, b: seq<T>)
    ensures Total(f, a + b) == Total(f, a) + Total(f, b)
  {
    if b == [] {
      assert a + b == a;
    } else {
      assert Front(a + b) == a + Front(b) && Last(a + b) == Last(b);
      TotalConcat(f, a, Front(b));
    }
  }

  lemma TotalAround<T>(f: T -> multiset<Ticket>, s: seq<T>, i: nat)
    requires i < |s|
    ensures Total(f, s) == Total(f, s[..i] + s[i + 1..]) + f(s[i])
  {
    hide *;
    var a, b := s[..i], s[i + 1..];
    assert s == (a + [s[i]]) + b;
    TotalConcat(f, a + [s[i]], b);
    TotalConcat(f, a, [s[i]]);
    TotalOne(f, s[i]);
    TotalConcat(f, a, b);
  }

  lemma TotalUpdate<T>(f: T -> multiset<Ticket>, s: seq<T>, i: nat, x: T)
    requires i < |s|
    ensures Total(f, s[i := x]) + f(s[i]) == Total(f, s) + f(x)
  {
    var t := s[i := x];
    TotalAround(f, s, i);
    TotalAround(f, t, i);
    assert t[..i] + t[i + 1..] == s[..i] + s[i + 1..];
  }

  /** The order does not matter. */
  lemma {:induction false} TotalPermuted<T>(f: T -> multiset<Ticket>, a: seq<T>, b: seq<T>)
    requires multiset(a) == multiset(b)
    ensures Total(f, a) == Total(f, b)
    decreases |a|
  {
    if a == [] {
      assert |multiset(b)| == 0;
      assert b == [];
    } else {
      var x := Last(a);
      assert a == Front(a) + [x];
      assert x in multiset(b);
      var i :| 0 <= i < |b| && b[i] == x;
      var rest := b[..i] + b[i + 1..];
      assert b == b[..i] + [x] + b[i + 1..];
      assert multiset(rest) == multiset(b) - multiset{x};
      assert multiset(Front(a)) == multiset(a) - multiset{x};
      TotalPermuted(f, Front(a), rest);
      TotalAround(f, b, i);
    }
  }

  /** Element by element the same bags. */
  lemma {:induction false} TotalMapped<S, T>(f: S -> multiset<Ticket>, a: seq<S>, g: T -> multiset<Ticket>, b: seq<T>)
    requires |a| == |b| && forall i :: 0 <= i < |a| ==> f(a[i]) == g(b[i])
    ensures Total(f, a) == Total(g, b)
  {
    if a != [] {
      assert f(a[|a| - 1]) == g(b[|b| - 1]);
      TotalMapped(f, Front(a), g, Front(b));
    }
  }

  lemma {:induction false} TotalContains<T>(f: T -> multiset<Ticket>, s: seq<T>, i: nat)
    requires i < |s|
    ensures f(s[i]) <= Total(f, s)
  {
    TotalAround(f, s, i);
  }

  /** What occurs once in the sum occurs once in exactly one of the bags. */
  lemma {:induction false} TotalUnique<T>(f: T -> multiset<Ticket>, s: seq<T>, x: Ticket) returns (i: nat)
    requires Total(f, s)[x] == 1
    ensures i < |s| && f(s[i])[x] == 1
    ensures forall j :: 0 <= j < |s| && j != i ==> x !in f(s[j])
  {
    if f(Last(s))[x] == 1 {
      i := |s| - 1;
      forall j | 0 <= j < |s| && j != i
        ensures x !in f(s[j])
      {
        TotalContains(f, Front(s), j);
        assert Front(s)[j] == s[j];
      }
    } else {
      i := TotalUnique(f, Front(s), x);
      assert forall j :: 0 <= j < |Front(s)| ==> Front(s)[j] == s[j];
    }
  }
}
