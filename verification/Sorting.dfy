/** sort.SliceStable and sort.Strings: stable insertion by a total preorder. */
module Sorting {
  import opened Text

  ghost predicate TotalPreorder<T(!new)>(leq: (T, T) -> bool) {
    && (forall x, y :: leq(x, y) || leq(y, x))
    && (forall x, y, z :: leq(x, y) && leq(y, z) ==> leq(x, z))
  }

  ghost predicate Sorted<T>(s: seq<T>, leq: (T, T) -> bool) {
    forall i, j :: 0 <= i < j < |s| ==> leq(s[i], s[j])
  }

  /** leq tells the elements of s apart. */
  ghost predicate Antisymmetric<T>(s: seq<T>, leq: (T, T) -> bool) {
    forall x, y :: x in s && y in s && leq(x, y) && leq(y, x) ==> x == y
  }

  /** x goes after every element it is not strictly below. */
  function Insert<T>(x: T, s: seq<T>, leq: (T, T) -> bool): (r: seq<T>)
    ensures multiset(r) == multiset(s + [x])
  {
    if s == [] then [x]
    else if leq(s[|s| - 1], x) then s + [x]
    else
      var r := Insert(x, s[..|s| - 1], leq) + [s[|s| - 1]];
      assert multiset(r) == multiset(s + [x]) by { assert s == s[..|s| - 1] + [s[|s| - 1]]; }
      r
  }

  function Sort<T>(s: seq<T>, leq: (T, T) -> bool): (r: seq<T>)
    ensures multiset(r) == multiset(s)
  {
    if s == [] then []
    else
      assert s == s[..|s| - 1] + [s[|s| - 1]];
      Insert(s[|s| - 1], Sort(s[..|s| - 1], leq), leq)
  }

  lemma SameMembers<T>(s: seq<T>, t: seq<T>)
    requires multiset(s) == multiset(t)
    ensures |s| == |t|
    ensures forall x :: x in s <==> x in t
  {
    assert |multiset(s)| == |multiset(t)|;
    forall x ensures x in s <==> x in t {
      assert x in s <==> x in multiset(s);
      assert x in t <==> x in multiset(t);
    }
  }

  lemma {:induction false} InsertSorted<T(!new)>(x: T, s: seq<T>, leq: (T, T) -> bool)
    requires TotalPreorder(leq) && Sorted(s, leq)
    ensures Sorted(Insert(x, s, leq), leq)
  {
    if s != [] && !leq(s[|s| - 1], x) {
      var init, last := s[..|s| - 1], s[|s| - 1];
      InsertSorted(x, init, leq);
      var r := Insert(x, init, leq);
      SameMembers(r, init + [x]);
      forall i | 0 <= i < |r| ensures leq(r[i], last) {
        assert r[i] in init + [x];
      }
    }
  }

  lemma {:induction false} SortSorted<T(!new)>(s: seq<T>, leq: (T, T) -> bool)
    requires TotalPreorder(leq)
    ensures Sorted(Sort(s, leq), leq)
  {
    if s != [] {
      SortSorted(s[..|s| - 1], leq);
      InsertSorted(s[|s| - 1], Sort(s[..|s| - 1], leq), leq);
    }
  }

  lemma InsertLast<T>(x: T, s: seq<T>, leq: (T, T) -> bool)
    requires s == [] || leq(s[|s| - 1], x)
    ensures Insert(x, s, leq) == s + [x]
  {
  }

  lemma InsertEarlier<T>(x: T, s: seq<T>, leq: (T, T) -> bool)
    requires s != [] && !leq(s[|s| - 1], x)
    ensures Insert(x, s, leq) == Insert(x, s[..|s| - 1], leq) + [s[|s| - 1]]
  {
  }

  /** Stability: what was in order stays as it was. */
  lemma {:induction false} SortKeepsSorted<T(!new)>(s: seq<T>, leq: (T, T) -> bool)
    requires Sorted(s, leq)
    ensures Sort(s, leq) == s
  {
    hide Insert;
    if s != [] {
      var init, last := s[..|s| - 1], s[|s| - 1];
      assert s == init + [last];
      SortKeepsSorted(init, leq);
      InsertLast(last, init, leq);
    }
  }

  lemma LastIsGreatest<T>(s: seq<T>, x: T, leq: (T, T) -> bool)
    requires Sorted(s, leq) && x in s
    ensures x == s[|s| - 1] || leq(x, s[|s| - 1])
  {
    var i :| 0 <= i < |s| && s[i] == x;
    assert i < |s| - 1 || i == |s| - 1;
  }

  lemma DropLastMultiset<T>(s: seq<T>)
    requires s != []
    ensures multiset(s[..|s| - 1]) == multiset(s) - multiset{s[|s| - 1]}
  {
    assert s == s[..|s| - 1] + [s[|s| - 1]];
  }

  lemma SameLast<T>(s: seq<T>, t: seq<T>, leq: (T, T) -> bool)
    requires s != [] && t != [] && forall x :: x in s <==> x in t
    requires Sorted(s, leq) && Sorted(t, leq) && Antisymmetric(s, leq)
    ensures s[|s| - 1] == t[|t| - 1]
  {
    var a, b := s[|s| - 1], t[|t| - 1];
    assert a in s && b in t;
    LastIsGreatest(s, b, leq);
    LastIsGreatest(t, a, leq);
  }

  /** A sorted arrangement of distinguishable elements is unique. */
  lemma {:induction false} SortedUnique<T>(s: seq<T>, t: seq<T>, leq: (T, T) -> bool)
    requires multiset(s) == multiset(t)
    requires Sorted(s, leq) && Sorted(t, leq) && Antisymmetric(s, leq)
    ensures s == t
  {
    hide Sorted, Antisymmetric;
    SameMembers(s, t);
    if s != [] {
      SameLast(s, t, leq);
      DropLastMultiset(s);
      DropLastMultiset(t);
      DropLastKeeps(s, leq);
      DropLastKeeps(t, leq);
      SortedUnique(s[..|s| - 1], t[..|t| - 1], leq);
      assert s == s[..|s| - 1] + [s[|s| - 1]] && t == t[..|t| - 1] + [t[|t| - 1]];
    }
  }

  lemma DropLastKeeps<T>(s: seq<T>, leq: (T, T) -> bool)
    requires s != [] && Sorted(s, leq)
    ensures Sorted(s[..|s| - 1], leq)
    ensures Antisymmetric(s, leq) ==> Antisymmetric(s[..|s| - 1], leq)
  {
    assert forall x :: x in s[..|s| - 1] ==> x in s;
  }

  /** Sorting forgets the order in which the elements arrived. */
  lemma SortCanonical<T(!new)>(s: seq<T>, t: seq<T>, leq: (T, T) -> bool)
    requires multiset(s) == multiset(t) && TotalPreorder(leq) && Antisymmetric(s, leq)
    ensures Sort(s, leq) == Sort(t, leq)
  {
    SortSorted(s, leq);
    SortSorted(t, leq);
    SameMembers(Sort(s, leq), s);
    SortedUnique(Sort(s, leq), Sort(t, leq), leq);
  }

  // --------------------------------------------------------- sort.Strings

  lemma AtMostIsTotalPreorder()
    ensures TotalPreorder(AtMost)
  {
    forall x, y ensures AtMost(x, y) || AtMost(y, x) {
      AtMostTotal(x, y);
    }
    forall x, y, z | AtMost(x, y) && AtMost(y, z) ensures AtMost(x, z) {
      AtMostTransitive(x, y, z);
    }
  }

  ghost predicate Distinct<T>(s: seq<T>) {
    forall i, j :: 0 <= i < j < |s| ==> s[i] != s[j]
  }

  lemma {:induction false} DistinctMultiset<T>(s: seq<T>)
    ensures Distinct(s) <==> forall x :: x in s ==> multiset(s)[x] == 1
  {
    if s != [] {
      var init, last := s[..|s| - 1], s[|s| - 1];
      assert s == init + [last];
      DistinctMultiset(init);
      if Distinct(s) {
        assert last !in init;
        assert forall x :: x in init ==> x != last;
      } else if forall x :: x in s ==> multiset(s)[x] == 1 {
        assert multiset(s)[last] == 1;
        assert last !in init;
        forall x | x in init ensures multiset(init)[x] == 1 {
          assert x in s;
        }
      }
    }
  }

  /** Without repetitions, the same members make the same multiset. */
  lemma DistinctSameMembers<T>(s: seq<T>, t: seq<T>)
    requires Distinct(s) && Distinct(t) && forall x :: x in s <==> x in t
    ensures multiset(s) == multiset(t)
  {
    DistinctMultiset(s);
    DistinctMultiset(t);
    forall x ensures multiset(s)[x] == multiset(t)[x] {
      assert x in s <==> x in multiset(s);
      assert x in t <==> x in multiset(t);
    }
  }
}
