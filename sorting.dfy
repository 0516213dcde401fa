/** Python's sorted(..., key=lambda x: x[0]) on a list of integer pairs: a
    stable sort by the first component. */
module Sorting {

  type Edge = (int, int)

  predicate SortedByFirst(s: seq<Edge>) {
    forall i, j :: 0 <= i < j < |s| ==> s[i].0 <= s[j].0
  }

  predicate NoDuplicates<T(==)>(s: seq<T>) {
    forall i, j :: 0 <= i < j < |s| ==> s[i] != s[j]
  }

  /** Insert x after every element whose key is not larger (keeps stability). */
  function Insert(x: Edge, s: seq<Edge>): (r: seq<Edge>)
    ensures |r| == |s| + 1
  {
    if s == [] then [x]
    else if x.0 < s[0].0 then [x] + s
    else [s[0]] + Insert(x, s[1..])
  }

  lemma {:induction false} InsertElements(x: Edge, s: seq<Edge>)
    ensures multiset(Insert(x, s)) == multiset(s) + multiset{x}
    ensures forall e :: e in Insert(x, s) <==> e == x || e in s
  {
    if s != [] && x.0 >= s[0].0 {
      InsertElements(x, s[1..]);
      assert s == [s[0]] + s[1..];
    }
  }

  lemma {:induction false} InsertSorted(x: Edge, s: seq<Edge>)
    requires SortedByFirst(s)
    ensures SortedByFirst(Insert(x, s))
  {
    if s != [] && x.0 >= s[0].0 {
      InsertSorted(x, s[1..]);
      InsertElements(x, s[1..]);
      var rest := Insert(x, s[1..]);
      forall i | 0 <= i < |rest| ensures s[0].0 <= rest[i].0 {
        assert rest[i] in rest;
      }
    }
  }

  /** The sorted list: ordered by first component, a permutation of the input. */
  function SortByFirst(s: seq<Edge>): (r: seq<Edge>)
    ensures SortedByFirst(r)
    ensures multiset(r) == multiset(s)
  {
    if s == [] then []
    else
      var init := SortByFirst(s[..|s| - 1]);
      InsertSorted(s[|s| - 1], init);
      InsertElements(s[|s| - 1], init);
      assert s == s[..|s| - 1] + [s[|s| - 1]];
      Insert(s[|s| - 1], init)
  }

  /** A permutation has the same members. */
  lemma PermutationMembers<T>(a: seq<T>, b: seq<T>)
    requires multiset(a) == multiset(b)
    ensures forall x :: x in a <==> x in b
  {
    forall x ensures x in a <==> x in b {
      assert x in a <==> x in multiset(a);
    }
  }

  /** A permutation of a list without duplicates has none either. */
  lemma PermutationNoDuplicates<T>(a: seq<T>, b: seq<T>)
    requires multiset(a) == multiset(b) && NoDuplicates(a)
    ensures NoDuplicates(b)
  {
    forall i, j | 0 <= i < j < |b|
      ensures b[i] != b[j]
    {
      if b[i] == b[j] {
        assert multiset(b)[b[i]] >= 2 by {
          assert b == b[..i] + [b[i]] + b[i + 1..j] + [b[j]] + b[j + 1..];
        }
        CountOne(a, b[i]);
      }
    }
  }

  /** An element occurs at most once in a list without duplicates. */
  lemma {:induction false} CountOne<T>(a: seq<T>, x: T)
    requires NoDuplicates(a)
    ensures multiset(a)[x] <= 1
  {
    if a != [] {
      assert a == [a[0]] + a[1..];
      CountOne(a[1..], x);
      if a[0] == x {
        assert x !in a[1..];
      }
    }
  }

  /** Two sorted permutations of each other whose elements all have
      different keys are equal: the order is then forced. */
  lemma {:induction false} SortedUnique(a: seq<Edge>, b: seq<Edge>)
    requires SortedByFirst(a) && SortedByFirst(b)
    requires forall i, j :: 0 <= i < j < |a| ==> a[i].0 != a[j].0
    requires multiset(a) == multiset(b)
    ensures a == b
  {
    assert |a| == |multiset(a)| == |multiset(b)| == |b|;
    if a != [] {
      SameHead(a, b);
      DropHead(a, b);
      SortedUnique(a[1..], b[1..]);
    }
  }

  /** Sorted permutations with distinct keys start with the same element. */
  lemma SameHead(a: seq<Edge>, b: seq<Edge>)
    requires SortedByFirst(a) && SortedByFirst(b) && a != [] && b != []
    requires forall i, j :: 0 <= i < j < |a| ==> a[i].0 != a[j].0
    requires multiset(a) == multiset(b)
    ensures a[0] == b[0]
  {
    assert a[0] in multiset(b) && b[0] in multiset(a);
    var i :| 0 <= i < |b| && b[i] == a[0];
    var j :| 0 <= j < |a| && a[j] == b[0];
    assert a[0].0 <= a[j].0 == b[0].0 <= b[i].0 == a[0].0;
  }

  /** Removing a common head keeps two lists permutations of each other. */
  lemma DropHead(a: seq<Edge>, b: seq<Edge>)
    requires a != [] && b != [] && a[0] == b[0] && multiset(a) == multiset(b)
    ensures multiset(a[1..]) == multiset(b[1..])
  {
    assert a == [a[0]] + a[1..] && b == [b[0]] + b[1..];
    assert multiset(a) == multiset{a[0]} + multiset(a[1..]);
    assert multiset(b) == multiset{b[0]} + multiset(b[1..]);
    assert multiset(a[1..]) == multiset(a) - multiset{a[0]};
    assert multiset(b[1..]) == multiset(b) - multiset{b[0]};
  }

  /** Two lists without duplicates and with the same members are
      permutations of each other. */
  lemma SameMembersPermutation<T>(a: seq<T>, b: seq<T>)
    requires NoDuplicates(a) && NoDuplicates(b)
    requires forall x :: x in a <==> x in b
    ensures multiset(a) == multiset(b)
  {
    forall x ensures multiset(a)[x] == multiset(b)[x] {
      CountOne(a, x);
      CountOne(b, x);
      assert x in a <==> x in multiset(a);
      assert x in b <==> x in multiset(b);
    }
  }
}
