/** `Array.prototype.sort` with a comparator. Only what any correct sort returns is used: the
    result is an ordered permutation, and there is just one when no two items tie. */
module Sorting {

  ghost predicate Sorted<T(!new)>(s: seq<T>, leq: (T, T) -> bool) {
    forall i, j :: 0 <= i < j < |s| ==> leq(s[i], s[j])
  }

  ghost predicate TotalPreorder<T(!new)>(leq: (T, T) -> bool) {
    && (forall x, y :: leq(x, y) || leq(y, x))
    && (forall x, y, z :: leq(x, y) && leq(y, z) ==> leq(x, z))
  }

  /** No two different items of `s` tie. */
  ghost predicate NoTies<T(!new)>(s: seq<T>, leq: (T, T) -> bool) {
    forall x, y :: x in s && y in s && leq(x, y) && leq(y, x) ==> x == y
  }

  function Insert<T>(x: T, s: seq<T>, leq: (T, T) -> bool): seq<T> {
    if s == [] || leq(x, s[0]) then [x] + s else [s[0]] + Insert(x, s[1..], leq)
  }

  function Sort<T>(s: seq<T>, leq: (T, T) -> bool): seq<T> {
    if s == [] then [] else Insert(s[0], Sort(s[1..], leq), leq)
  }

  lemma {:induction false} InsertSorts<T(!new)>(x: T, s: seq<T>, leq: (T, T) -> bool)
    requires TotalPreorder(leq) && Sorted(s, leq)
    ensures Sorted(Insert(x, s, leq), leq)
    ensures multiset(Insert(x, s, leq)) == multiset{x} + multiset(s)
  {
    if s == [] {
    } else if leq(x, s[0]) {
      forall i | 0 <= i < |s| ensures leq(x, s[i]) { assert i == 0 || leq(s[0], s[i]); }
    } else {
      InsertSorts(x, s[1..], leq);
      assert s == [s[0]] + s[1..];
      InsertAbove(x, s, leq);
    }
  }

  lemma InsertAbove<T(!new)>(x: T, s: seq<T>, leq: (T, T) -> bool)
    requires Sorted(s, leq) && s != [] && leq(s[0], x)
    requires var r := Insert(x, s[1..], leq); Sorted(r, leq) && multiset(r) == multiset{x} + multiset(s[1..])
    ensures Sorted([s[0]] + Insert(x, s[1..], leq), leq)
  {
    hide Insert;
    var r := Insert(x, s[1..], leq);
    forall i | 0 <= i < |r| ensures leq(s[0], r[i]) {
      assert r[i] in multiset(r);
      assert r[i] == x || r[i] in s[1..];
    }
  }

  lemma {:induction false} SortSorts<T(!new)>(s: seq<T>, leq: (T, T) -> bool)
    requires TotalPreorder(leq)
    ensures Sorted(Sort(s, leq), leq)
    ensures multiset(Sort(s, leq)) == multiset(s)
    ensures |Sort(s, leq)| == |s|
    ensures forall x :: x in Sort(s, leq) <==> x in s
  {
    if s != [] {
      SortSorts(s[1..], leq);
      InsertSorts(s[0], Sort(s[1..], leq), leq);
      assert s == [s[0]] + s[1..];
    }
    SamePermuted(Sort(s, leq), s);
  }

  lemma SamePermuted<T(!new)>(s: seq<T>, t: seq<T>)
    requires multiset(s) == multiset(t)
    ensures |s| == |t| && forall x :: x in s <==> x in t
  {
    assert |multiset(s)| == |multiset(t)|;
    forall x ensures x in s <==> x in t {
      assert x in multiset(s) <==> x in s;
      assert x in multiset(t) <==> x in t;
    }
  }

  /** Two ordered permutations of the same items are equal when nothing ties. */
  lemma {:induction false} SortedUnique<T(!new)>(s: seq<T>, t: seq<T>, leq: (T, T) -> bool)
    requires TotalPreorder(leq) && Sorted(s, leq) && Sorted(t, leq)
    requires multiset(s) == multiset(t) && NoTies(s, leq)
    ensures s == t
  {
    hide Sorted, TotalPreorder;
    assert |multiset(s)| == |multiset(t)|;
    if s != [] {
      HeadIsLeast(s, t, leq);
      HeadIsLeast(t, s, leq);
      SortedTail(s, leq);
      SortedTail(t, leq);
      assert s[0] == t[0];
      SameTail(s, t);
      assert NoTies(s[1..], leq);
      SortedUnique(s[1..], t[1..], leq);
      assert s == [s[0]] + s[1..] && t == [t[0]] + t[1..];
    }
  }

  lemma SameTail<T>(s: seq<T>, t: seq<T>)
    requires multiset(s) == multiset(t) && s != [] && t != [] && s[0] == t[0]
    ensures multiset(s[1..]) == multiset(t[1..])
  {
    assert s == [s[0]] + s[1..] && t == [t[0]] + t[1..];
    assert multiset(s[1..]) == multiset(s) - multiset{s[0]};
    assert multiset(t[1..]) == multiset(t) - multiset{t[0]};
  }

  lemma SortedTail<T(!new)>(s: seq<T>, leq: (T, T) -> bool)
    requires Sorted(s, leq) && s != []
    ensures Sorted(s[1..], leq)
  {
  }

  lemma HeadIsLeast<T(!new)>(s: seq<T>, t: seq<T>, leq: (T, T) -> bool)
    requires TotalPreorder(leq) && Sorted(s, leq) && multiset(s) == multiset(t) && s != [] && t != []
    ensures leq(s[0], t[0]) && t[0] in s
  {
    assert t[0] in multiset(t);
    var i :| 0 <= i < |s| && s[i] == t[0];
  }

  /** Sorting forgets the input order when nothing ties. */
  lemma SortPermutation<T(!new)>(s: seq<T>, t: seq<T>, leq: (T, T) -> bool)
    requires TotalPreorder(leq) && multiset(s) == multiset(t) && NoTies(s, leq)
    ensures Sort(s, leq) == Sort(t, leq)
  {
    SortSorts(s, leq);
    SortSorts(t, leq);
    SortedUnique(Sort(s, leq), Sort(t, leq), leq);
  }

  ghost predicate NoDup<T(!new)>(s: seq<T>) {
    forall i, j :: 0 <= i < j < |s| ==> s[i] != s[j]
  }

  /** Duplicate-free lists with the same members are permutations of each other. */
  lemma {:induction false} NoDupSameMembers<T(!new)>(s: seq<T>, t: seq<T>)
    requires NoDup(s) && NoDup(t)
    requires forall x :: x in s <==> x in t
    ensures multiset(s) == multiset(t)
  {
    forall x ensures multiset(s)[x] == multiset(t)[x] {
      NoDupCount(s, x);
      NoDupCount(t, x);
    }
  }

  lemma {:induction false} NoDupCount<T(!new)>(s: seq<T>, x: T)
    requires NoDup(s)
    ensures multiset(s)[x] == if x in s then 1 else 0
  {
    if s != [] {
      assert s == [s[0]] + s[1..];
      NoDupCount(s[1..], x);
    }
  }

  lemma CountsTwice<T(!new)>(s: seq<T>, i: nat, j: nat)
    requires i < j < |s| && s[i] == s[j]
    ensures multiset(s)[s[i]] >= 2
  {
    assert s == s[..j] + [s[j]] + s[j + 1..];
    assert s[i] in s[..j];
  }

  lemma NoDupPermutation<T(!new)>(s: seq<T>, t: seq<T>)
    requires NoDup(s) && multiset(s) == multiset(t)
    ensures NoDup(t)
  {
    forall i, j | 0 <= i < j < |t| ensures t[i] != t[j] {
      NoDupCount(s, t[i]);
      if t[i] == t[j] { CountsTwice(t, i, j); }
    }
  }
}
