/** internal/b4b/state.go: flat lists out of keyed maps, and the maps back out of the lists. */
module Snapshots {
  import opened Text
  import opened Sorting

  // -------------------------------------------------------- one per key

  /** The loop of a Restore over one map: later entries overwrite earlier ones. */
  function Filed<V>(m: map<string, V>, s: seq<V>, key: V -> string): map<string, V> {
    if s == [] then m else Filed(m, s[..|s| - 1], key)[key(s[|s| - 1]) := s[|s| - 1]]
  }

  ghost predicate KeyedBy<V(!new)>(m: map<string, V>, key: V -> string) {
    forall k :: k in m ==> key(m[k]) == k
  }

  /** s lists the values of m, in any order. */
  ghost predicate Lists<V(!new)>(m: map<string, V>, s: seq<V>, key: V -> string) {
    forall v :: multiset(s)[v] == if key(v) in m && m[key(v)] == v then 1 else 0
  }

  lemma InMultiset<V>(s: seq<V>, v: V)
    ensures v in s <==> multiset(s)[v] > 0
  {
    assert v in s <==> v in multiset(s);
  }

  /** Entry k afterwards is the last value of s with that key. */
  lemma {:induction false} FiledMeaning<V(!new)>(m: map<string, V>, s: seq<V>, key: V -> string, k: string)
    ensures var r := Filed(m, s, key);
      && (k in r <==> k in m || exists i :: 0 <= i < |s| && key(s[i]) == k)
      && (forall i :: 0 <= i < |s| && key(s[i]) == k && (forall j :: i < j < |s| ==> key(s[j]) != k) ==> r[k] == s[i])
      && (k in m && (forall i :: 0 <= i < |s| ==> key(s[i]) != k) ==> r[k] == m[k])
      && (k in r ==> (k in m && r[k] == m[k]) || (r[k] in s && key(r[k]) == k))
  {
    if s != [] {
      var n := |s| - 1;
      FiledMeaning(m, s[..n], key, k);
      if key(s[n]) == k {
        assert s[n] in s;
      } else {
        forall i | 0 <= i < |s| && key(s[i]) == k ensures i < n && s[..n][i] == s[i] {
        }
      }
    }
  }

  /** Filing a listing of a map makes the map again. */
  lemma FiledRebuilds<V(!new)>(m: map<string, V>, s: seq<V>, key: V -> string)
    requires KeyedBy(m, key) && Lists(m, s, key)
    ensures Filed(map[], s, key) == m
  {
    var r := Filed(map[], s, key);
    forall k ensures k in r <==> k in m
      ensures k in r ==> r[k] == m[k]
    {
      FiledMeaning(map[], s, key, k);
      if k in m {
        InMultiset(s, m[k]);
        var i :| 0 <= i < |s| && s[i] == m[k];
        assert key(s[i]) == k;
      }
      if k in r {
        InMultiset(s, r[k]);
      }
    }
  }

  /** The loop of a Snapshot over one map. */
  method Collect<V(!new, ==)>(m: map<string, V>, key: V -> string) returns (s: seq<V>)
    requires KeyedBy(m, key)
    ensures Lists(m, s, key)
  {
    s := [];
    var rest := m.Keys;
    while rest != {}
      invariant rest <= m.Keys
      invariant forall v :: multiset(s)[v] == if key(v) in m && key(v) !in rest && m[key(v)] == v then 1 else 0
    {
      var k :| k in rest;
      s := s + [m[k]];
      rest := rest - {k};
    }
  }

  // ------------------------------------------------------ a list per key

  function ListAt<V>(m: map<string, seq<V>>, k: string): seq<V> {
    if k in m then m[k] else []
  }

  /** The loop of a Restore over one map of lists. */
  function Grouped<V>(m: map<string, seq<V>>, s: seq<V>, owner: V -> string): map<string, seq<V>> {
    if s == [] then m
    else
      var r := Grouped(m, s[..|s| - 1], owner);
      var v := s[|s| - 1];
      r[owner(v) := ListAt(r, owner(v)) + [v]]
  }

  ghost predicate OwnedBy<V(!new)>(m: map<string, seq<V>>, owner: V -> string) {
    forall k, v :: v in ListAt(m, k) ==> owner(v) == k
  }

  /** s lists what m's lists hold, each as often, in any order. */
  ghost predicate ListsAll<V(!new)>(m: map<string, seq<V>>, s: seq<V>, owner: V -> string) {
    forall v :: multiset(s)[v] == multiset(ListAt(m, owner(v)))[v]
  }

  /** Equal up to the order inside the lists, an absent list being an empty one. */
  ghost predicate SameLists<V(!new)>(m: map<string, seq<V>>, r: map<string, seq<V>>) {
    forall k :: multiset(ListAt(m, k)) == multiset(ListAt(r, k))
  }

  /** What appending to one list does to all of them. */
  lemma Appended<V(!new)>(m: map<string, seq<V>>, k: string, v: V)
    ensures ListAt(m[k := ListAt(m, k) + [v]], k) == ListAt(m, k) + [v]
    ensures forall c :: c != k ==> ListAt(m[k := ListAt(m, k) + [v]], c) == ListAt(m, c)
    ensures forall c, x :: x in ListAt(m[k := ListAt(m, k) + [v]], c) <==> x in ListAt(m, c) || (c == k && x == v)
  {
  }

  lemma OwnedAppended<V(!new)>(m: map<string, seq<V>>, owner: V -> string, v: V)
    requires OwnedBy(m, owner)
    ensures OwnedBy(m[owner(v) := ListAt(m, owner(v)) + [v]], owner)
  {
    var r := m[owner(v) := ListAt(m, owner(v)) + [v]];
    forall c, x | x in ListAt(r, c) ensures owner(x) == c {
      assert x in ListAt(m, c) || (c == owner(v) && x == v);
    }
  }

  function OfOwner<V>(s: seq<V>, owner: V -> string, k: string): seq<V> {
    if s == [] then []
    else OfOwner(s[..|s| - 1], owner, k) + if owner(s[|s| - 1]) == k then [s[|s| - 1]] else []
  }

  /** The list of k afterwards: what was there, then the members of s, in their order. */
  lemma {:induction false} GroupedMeaning<V>(m: map<string, seq<V>>, s: seq<V>, owner: V -> string, k: string)
    ensures ListAt(Grouped(m, s, owner), k) == ListAt(m, k) + OfOwner(s, owner, k)
  {
    if s != [] {
      GroupedMeaning(m, s[..|s| - 1], owner, k);
    }
  }

  lemma LastCount<V>(s: seq<V>, v: V)
    requires s != []
    ensures multiset(s)[v] == multiset(s[..|s| - 1])[v] + if s[|s| - 1] == v then 1 else 0
  {
    assert s == s[..|s| - 1] + [s[|s| - 1]];
  }

  lemma {:induction false} OfOwnerCounts<V(!new)>(s: seq<V>, owner: V -> string, k: string, v: V)
    ensures multiset(OfOwner(s, owner, k))[v] == if owner(v) == k then multiset(s)[v] else 0
  {
    if s != [] {
      var n := |s| - 1;
      OfOwnerCounts(s[..n], owner, k, v);
      LastCount(s, v);
    }
  }

  /** Grouping a listing makes the lists again, up to their order. */
  lemma GroupedRebuilds<V(!new)>(m: map<string, seq<V>>, s: seq<V>, owner: V -> string)
    requires OwnedBy(m, owner) && ListsAll(m, s, owner)
    ensures SameLists(m, Grouped(map[], s, owner))
    ensures OwnedBy(Grouped(map[], s, owner), owner)
  {
    var r := Grouped(map[], s, owner);
    forall k ensures multiset(ListAt(m, k)) == multiset(ListAt(r, k))
      ensures forall v :: v in ListAt(r, k) ==> owner(v) == k
    {
      GroupedMeaning(map[], s, owner, k);
      assert ListAt(r, k) == OfOwner(s, owner, k);
      forall v ensures multiset(ListAt(m, k))[v] == multiset(ListAt(r, k))[v]
        ensures v in ListAt(r, k) ==> owner(v) == k
      {
        OfOwnerCounts(s, owner, k, v);
        InMultiset(ListAt(m, k), v);
        InMultiset(ListAt(r, k), v);
      }
    }
  }

  /** The nested loops of a Snapshot over one map of lists. */
  method Flatten<V(!new)>(m: map<string, seq<V>>, ghost owner: V -> string) returns (s: seq<V>)
    requires OwnedBy(m, owner)
    ensures ListsAll(m, s, owner)
  {
    s := [];
    var rest := m.Keys;
    while rest != {}
      invariant rest <= m.Keys
      invariant forall v :: multiset(s)[v] == if owner(v) in rest then 0 else multiset(ListAt(m, owner(v)))[v]
    {
      var k :| k in rest;
      ghost var before := s;
      for i := 0 to |m[k]|
        invariant s == before + m[k][..i]
      {
        s := s + [m[k][i]];
        assert m[k][..i + 1] == m[k][..i] + [m[k][i]];
      }
      assert m[k][..|m[k]|] == m[k];
      forall v ensures multiset(s)[v] == multiset(before)[v] + multiset(m[k])[v]
        ensures owner(v) != k ==> multiset(m[k])[v] == 0
      {
        assert ListAt(m, k) == m[k];
        InMultiset(m[k], v);
      }
      rest := rest - {k};
    }
  }

  // ------------------------------------------------------ sortByCreated

  predicate KeyAtMost<V>(key: V -> string, a: V, b: V) {
    AtMost(key(a), key(b))
  }

  function ByKey<V>(key: V -> string): (V, V) -> bool {
    (a, b) => KeyAtMost(key, a, b)
  }

  /** sortByCreated: sorted by the key, the same elements. */
  function Arranged<V>(s: seq<V>, key: V -> string): seq<V> {
    Sort(s, ByKey(key))
  }

  lemma ArrangedSorted<V(!new)>(s: seq<V>, key: V -> string)
    ensures Sorted(Arranged(s, key), ByKey(key))
  {
    hide AtMost;
    var leq := ByKey(key);
    AtMostIsTotalPreorder();
    assert TotalPreorder(leq) by {
      forall x, y ensures leq(x, y) || leq(y, x) {
        assert AtMost(key(x), key(y)) || AtMost(key(y), key(x));
      }
      forall x, y, z | leq(x, y) && leq(y, z) ensures leq(x, z) {
        assert AtMost(key(x), key(y)) && AtMost(key(y), key(z));
      }
    }
    SortSorted(s, leq);
  }
}
