/** The stable sort behind Python's `sorted` and the right-biased insertion
    behind `SortedKeyList.add`, with the property that characterises both. */
module Sorting {
  import opened Common

  ghost predicate TotalPreorder<T(!new)>(leq: (T, T) -> bool) {
    && (forall x, y :: leq(x, y) || leq(y, x))
    && (forall x, y, z :: leq(x, y) && leq(y, z) ==> leq(x, z))
  }

  ghost predicate Sorted<T>(leq: (T, T) -> bool, s: seq<T>) {
    forall i, j :: 0 <= i < j < |s| ==> leq(s[i], s[j])
  }

  /** Orders values by a real key. */
  function ByKey<T>(key: T -> real): (T, T) -> bool {
    (x, y) => key(x) <= key(y)
  }

  /** Inserts `x` after every element that is not above it. */
  function InsertRight<T>(leq: (T, T) -> bool, s: seq<T>, x: T): (r: seq<T>)
    ensures |r| == |s| + 1
  {
    if s == [] || leq(Last(s), x) then s + [x]
    else InsertRight(leq, Front(s), x) + [Last(s)]
  }

  function StableSort<T>(leq: (T, T) -> bool, s: seq<T>): (r: seq<T>)
    ensures |r| == |s|
  {
    if s == [] then [] else InsertRight(leq, StableSort(leq, Front(s)), Last(s))
  }

  /** The elements of `s` that tie with `y`, in the order they occur. */
  ghost function Ties<T>(leq: (T, T) -> bool, y: T, s: seq<T>): seq<T> {
    if s == [] then []
    else Ties(leq, y, Front(s)) + if leq(Last(s), y) && leq(y, Last(s)) then [Last(s)] else []
  }

  lemma {:induction false} InsertRightPermutes<T>(leq: (T, T) -> bool, s: seq<T>, x: T)
    ensures multiset(InsertRight(leq, s, x)) == multiset(s) + multiset{x}
  {
    if s != [] && !leq(Last(s), x) {
      InsertRightPermutes(leq, Front(s), x);
      assert s == Front(s) + [Last(s)];
    }
  }

  lemma {:induction false} InsertRightMember<T>(leq: (T, T) -> bool, s: seq<T>, x: T, i: nat)
    requires i <= |s|
    ensures InsertRight(leq, s, x)[i] == x || InsertRight(leq, s, x)[i] in s
  {
    if s != [] && !leq(Last(s), x) && i < |s| {
      InsertRightMember(leq, Front(s), x, i);
    }
  }

  lemma {:induction false} InsertRightSorted<T(!new)>(leq: (T, T) -> bool, s: seq<T>, x: T)
    requires TotalPreorder(leq) && Sorted(leq, s)
    ensures Sorted(leq, InsertRight(leq, s, x))
  {
    if s == [] {
    } else if leq(Last(s), x) {
      assert forall i :: 0 <= i < |s| ==> leq(s[i], Last(s)) || i == |s| - 1;
    } else {
      var z, r := Last(s), InsertRight(leq, Front(s), x);
      InsertRightSorted(leq, Front(s), x);
      forall i | 0 <= i < |r|
        ensures leq(r[i], z)
      {
        InsertRightMember(leq, Front(s), x, i);
      }
    }
  }

  lemma InsertRightKeeps<T(!new)>(leq: (T, T) -> bool, s: seq<T>, x: T)
    requires TotalPreorder(leq) && Sorted(leq, s)
    ensures multiset(InsertRight(leq, s, x)) == multiset(s) + multiset{x}
    ensures Sorted(leq, InsertRight(leq, s, x))
  {
    hide *;
    InsertRightPermutes(leq, s, x);
    InsertRightSorted(leq, s, x);
  }

  lemma {:induction false} InsertRightStable<T(!new)>(leq: (T, T) -> bool, s: seq<T>, x: T, y: T)
    requires TotalPreorder(leq) && Sorted(leq, s)
    ensures Ties(leq, y, InsertRight(leq, s, x)) == Ties(leq, y, s + [x])
  {
    if s != [] && !leq(Last(s), x) {
      var z := Last(s);
      var r := InsertRight(leq, Front(s), x);
      InsertRightStable(leq, Front(s), x, y);
      assert Front(r + [z]) == r;
      assert Front(s + [x]) == s;
      assert Front(Front(s) + [x]) == Front(s);
    }
  }

  lemma {:induction false} StableSortTies<T(!new)>(leq: (T, T) -> bool, s: seq<T>, y: T)
    requires TotalPreorder(leq)
    ensures Ties(leq, y, StableSort(leq, s)) == Ties(leq, y, s)
  {
    hide TotalPreorder, Sorted, InsertRight;
    if s != [] {
      var r := StableSort(leq, Front(s));
      StableSortTies(leq, Front(s), y);
      StableSortSorted(leq, Front(s));
      InsertRightStable(leq, r, Last(s), y);
      assert Front(r + [Last(s)]) == r;
    }
  }

  lemma EmptySorted<T>(leq: (T, T) -> bool)
    ensures Sorted(leq, [])
  {
  }

  lemma {:induction false} StableSortPermutes<T>(leq: (T, T) -> bool, s: seq<T>)
    ensures multiset(StableSort(leq, s)) == multiset(s)
  {
    hide InsertRight;
    if s != [] {
      StableSortPermutes(leq, Front(s));
      InsertRightPermutes(leq, StableSort(leq, Front(s)), Last(s));
      assert s == Front(s) + [Last(s)];
    }
  }

  /** Everything `sorted` promises: ordered, a permutation, and stable. */
  lemma StableSortMeaning<T(!new)>(leq: (T, T) -> bool, s: seq<T>)
    requires TotalPreorder(leq)
    ensures Sorted(leq, StableSort(leq, s))
    ensures multiset(StableSort(leq, s)) == multiset(s)
    ensures forall y :: Ties(leq, y, StableSort(leq, s)) == Ties(leq, y, s)
  {
    hide *;
    StableSortPermutes(leq, s);
    forall y
      ensures Ties(leq, y, StableSort(leq, s)) == Ties(leq, y, s)
    {
      StableSortTies(leq, s, y);
    }
    StableSortSorted(leq, s);
  }

  lemma {:induction false} StableSortSorted<T(!new)>(leq: (T, T) -> bool, s: seq<T>)
    requires TotalPreorder(leq)
    ensures Sorted(leq, StableSort(leq, s))
  {
    hide TotalPreorder, Sorted, InsertRight;
    if s == [] {
      EmptySorted(leq);
    } else {
      StableSortSorted(leq, Front(s));
      InsertRightSorted(leq, StableSort(leq, Front(s)), Last(s));
    }
  }

  lemma {:induction false} TiesMember<T(!new)>(leq: (T, T) -> bool, y: T, s: seq<T>)
    requires TotalPreorder(leq)
    ensures forall e :: e in Ties(leq, y, s) <==> e in s && leq(e, y) && leq(y, e)
  {
    if s != [] {
      TiesMember(leq, y, Front(s));
      assert s == Front(s) + [Last(s)];
    }
  }

  /** The last elements of two ordered sequences with the same ties agree. */
  lemma SameLast<T(!new)>(leq: (T, T) -> bool, r: seq<T>, q: seq<T>)
    requires TotalPreorder(leq) && Sorted(leq, r) && Sorted(leq, q) && r != []
    requires forall y :: Ties(leq, y, r) == Ties(leq, y, q)
    ensures q != [] && Last(r) == Last(q)
  {
    var x := Last(r);
    TiesMember(leq, x, r);
    TiesMember(leq, x, q);
    assert x in q;
    var z := Last(q);
    TiesMember(leq, z, r);
    TiesMember(leq, z, q);
    assert z in r;
    assert leq(x, z) && leq(z, x);
    assert Last(Ties(leq, x, r)) == x && Last(Ties(leq, x, q)) == z;
  }

  lemma SameFrontTies<T(!new)>(leq: (T, T) -> bool, r: seq<T>, q: seq<T>, y: T)
    requires r != [] && q != [] && Last(r) == Last(q) && Ties(leq, y, r) == Ties(leq, y, q)
    ensures Ties(leq, y, Front(r)) == Ties(leq, y, Front(q))
  {
    var x, a, b := Last(r), Ties(leq, y, Front(r)), Ties(leq, y, Front(q));
    var tail := if leq(x, y) && leq(y, x) then [x] else [];
    assert Ties(leq, y, r) == a + tail && Ties(leq, y, q) == b + tail;
    assert a == (a + tail)[..|a|] && b == (b + tail)[..|b|];
  }

  lemma SortedFront<T>(leq: (T, T) -> bool, s: seq<T>)
    requires Sorted(leq, s) && s != []
    ensures Sorted(leq, Front(s))
  {
  }

  lemma NoTies<T(!new)>(leq: (T, T) -> bool, q: seq<T>)
    requires TotalPreorder(leq) && forall y :: Ties(leq, y, q) == []
    ensures q == []
  {
    if q != [] {
      assert Ties(leq, Last(q), q) != [] by {
        assert leq(Last(q), Last(q));
      }
    }
  }

  /** An ordered sequence with the ties of `s` in the order of `s` is the
      stable sort of `s`: the three properties leave no freedom. */
  lemma {:induction false} StableSortUnique<T(!new)>(leq: (T, T) -> bool, r: seq<T>, q: seq<T>)
    requires TotalPreorder(leq) && Sorted(leq, r) && Sorted(leq, q)
    requires forall y :: Ties(leq, y, r) == Ties(leq, y, q)
    ensures r == q
    decreases |r|
  {
    hide TotalPreorder, Sorted;
    if r == [] {
      NoTies(leq, q);
    } else {
      hide Ties;
      SameLast(leq, r, q);
      SortedFront(leq, r);
      SortedFront(leq, q);
      forall y
        ensures Ties(leq, y, Front(r)) == Ties(leq, y, Front(q))
      {
        SameFrontTies(leq, r, q, y);
      }
      StableSortUnique(leq, Front(r), Front(q));
      assert r == Front(r) + [Last(r)] && q == Front(q) + [Last(q)];
    }
  }

  lemma {:induction false} SortedIsFixed<T(!new)>(leq: (T, T) -> bool, s: seq<T>)
    requires TotalPreorder(leq) && Sorted(leq, s)
    ensures StableSort(leq, s) == s
  {
    if s != [] {
      SortedIsFixed(leq, Front(s));
      assert s == Front(s) + [Last(s)];
    }
  }

  lemma ByKeyIsTotal<T(!new)>(key: T -> real)
    ensures TotalPreorder(ByKey(key))
  {
  }
}
