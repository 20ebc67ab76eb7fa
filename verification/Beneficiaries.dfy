/** The beneficiary store of internal/b4b/beneficiary.go, and how it comes back from the state file. */
module Beneficiaries {
  import opened Text
  import opened Sorting
  import opened Snapshots

  datatype Beneficiary = Beneficiary(id: string, externalRef: string, accountNumber: string, sanctionsStatus: string)

  /** byRef holds the id of the beneficiary it points at. */
  datatype Book = Book(byId: map<string, Beneficiary>, byRef: map<string, string>)

  function BeneficiaryId(b: Beneficiary): string { b.id }

  /** The last registration of a reference wins. */
  function Registered(m: Book, b: Beneficiary): Book {
    Book(m.byId[b.id := b], if b.externalRef != "" then m.byRef[b.externalRef := b.id] else m.byRef)
  }

  function Resolve(m: Book, id: string): Option<Beneficiary> {
    if id in m.byId then Some(m.byId[id])
    else if id in m.byRef && m.byRef[id] in m.byId then Some(m.byId[m.byRef[id]])
    else None
  }

  function Restored(m: Book, s: seq<Beneficiary>): Book {
    if s == [] then m else Registered(Restored(m, s[..|s| - 1]), s[|s| - 1])
  }

  /** After a registration: its id and its reference find it, and everything else finds what it found. */
  lemma RegisterMeaning(m: Book, b: Beneficiary, id: string)
    ensures Resolve(Registered(m, b), b.id) == Some(b)
    ensures b.externalRef != "" && b.externalRef !in m.byId ==> Resolve(Registered(m, b), b.externalRef) == Some(b)
    ensures id != b.id && (id != b.externalRef || id == "" || id in m.byId) && (id in m.byRef ==> m.byRef[id] != b.id)
      ==> Resolve(Registered(m, b), id) == Resolve(m, id)
  {
  }

  class BeneficiaryStore {
    var byId: map<string, Beneficiary>
    var byRef: map<string, string>

    function View(): Book
      reads this
    {
      Book(byId, byRef)
    }

    constructor ()
      ensures View() == Book(map[], map[])
    {
      byId, byRef := map[], map[];
    }

    /** Register, with the id newID hands out. */
    method Register(b: Beneficiary)
      modifies this
      ensures View() == Registered(old(View()), b)
    {
      byId := byId[b.id := b];
      if b.externalRef != "" {
        byRef := byRef[b.externalRef := b.id];
      }
    }

    method Snapshot() returns (s: seq<Beneficiary>)
      requires KeyedBy(byId, BeneficiaryId)
      ensures Lists(byId, s, BeneficiaryId) && Sorted(s, ByKey(BeneficiaryId))
    {
      var found := Collect(byId, BeneficiaryId);
      s := Arranged(found, BeneficiaryId);
      ArrangedSorted(found, BeneficiaryId);
    }

    method Restore(s: seq<Beneficiary>)
      modifies this
      ensures View() == Restored(old(View()), s)
    {
      for i := 0 to |s|
        invariant View() == Restored(old(View()), s[..i])
      {
        byId := byId[s[i].id := s[i]];
        if s[i].externalRef != "" {
          byRef := byRef[s[i].externalRef := s[i].id];
        }
        assert s[..i + 1][..i] == s[..i];
      }
      assert s[..|s|] == s;
    }
  }

  /** A reference names a beneficiary that has it, and every reference in use is indexed. */
  ghost predicate Indexed(m: Book) {
    && KeyedBy(m.byId, BeneficiaryId)
    && (forall r :: r in m.byRef ==> r != "" && m.byRef[r] in m.byId && m.byId[m.byRef[r]].externalRef == r)
    && (forall k :: k in m.byId && m.byId[k].externalRef != "" ==> m.byId[k].externalRef in m.byRef)
  }

  lemma RegisteredIndexed(m: Book, b: Beneficiary)
    requires Indexed(m) && b.id !in m.byId
    ensures Indexed(Registered(m, b))
  {
  }

  const NO_BENEFICIARIES: Book := Book(map[], map[])

  function RegisterAll(m: Book, bs: seq<Beneficiary>): Book {
    if bs == [] then m else Registered(RegisterAll(m, bs[..|bs| - 1]), bs[|bs| - 1])
  }

  lemma {:induction false} RegisteredIds(bs: seq<Beneficiary>)
    ensures forall k :: k in RegisterAll(NO_BENEFICIARIES, bs).byId ==> exists i :: 0 <= i < |bs| && bs[i].id == k
  {
    if bs != [] {
      var n := |bs| - 1;
      RegisteredIds(bs[..n]);
      forall k | k in RegisterAll(NO_BENEFICIARIES, bs).byId ensures exists i :: 0 <= i < |bs| && bs[i].id == k {
        if k in RegisterAll(NO_BENEFICIARIES, bs[..n]).byId {
          var i :| 0 <= i < n && bs[..n][i].id == k;
          assert bs[i].id == k;
        } else {
          assert bs[n].id == k;
        }
      }
    }
  }

  /** Over any registrations under fresh ids, references registered again included. */
  lemma {:induction false} AlwaysIndexed(bs: seq<Beneficiary>)
    requires forall i, j :: 0 <= i < j < |bs| ==> bs[i].id != bs[j].id
    ensures Indexed(RegisterAll(NO_BENEFICIARIES, bs))
  {
    if bs != [] {
      var n := |bs| - 1;
      AlwaysIndexed(bs[..n]);
      RegisteredIds(bs[..n]);
      RegisteredIndexed(RegisterAll(NO_BENEFICIARIES, bs[..n]), bs[n]);
    }
  }

  lemma {:induction false} RestoredFiles(m: Book, s: seq<Beneficiary>)
    ensures Restored(m, s).byId == Filed(m.byId, s, BeneficiaryId)
  {
    if s != [] {
      RestoredFiles(m, s[..|s| - 1]);
    }
  }

  /** From a file sorted by id, a reference comes back as its greatest id. */
  lemma {:induction false} RestoredRefs(s: seq<Beneficiary>, ref: string)
    requires Sorted(s, ByKey(BeneficiaryId))
    ensures var refs := Restored(Book(map[], map[]), s).byRef;
      && (ref in refs <==> exists i :: 0 <= i < |s| && s[i].externalRef == ref != "")
      && (ref in refs ==> exists i :: 0 <= i < |s| && s[i].externalRef == ref != "" && refs[ref] == s[i].id)
      && (ref in refs ==> forall i :: 0 <= i < |s| && s[i].externalRef == ref ==> AtMost(s[i].id, refs[ref]))
  {
    hide AtMost;
    if s != [] {
      var n := |s| - 1;
      RestoredRefs(s[..n], ref);
      assert s == s[..n] + [s[n]];
      forall i | 0 <= i < n ensures AtMost(s[i].id, s[n].id) {
        assert ByKey(BeneficiaryId)(s[i], s[n]);
      }
      assert AtMost(s[n].id, s[n].id) by { AtMostTotal(s[n].id, s[n].id); }
      var before := Restored(Book(map[], map[]), s[..n]).byRef;
      if ref in before {
        var i :| 0 <= i < n && s[..n][i].externalRef == ref != "" && before[ref] == s[..n][i].id;
        assert s[i].externalRef == ref;
      }
      if s[n].externalRef != ref {
        forall i | 0 <= i < |s| && s[i].externalRef == ref ensures i < n && s[..n][i] == s[i] {
        }
      }
    }
  }

  /** Every reference's current holder has the greatest id among those registered under it. */
  ghost predicate LatestIsGreatest(m: Book) {
    forall k :: k in m.byId && m.byId[k].externalRef in m.byRef ==> AtMost(k, m.byRef[m.byId[k].externalRef])
  }

  /**
   * A restart brings the records back always, and the reference index exactly when, for every
   * reference, the latest registration also has the greatest id: Restore reindexes in id order.
   */
  lemma RestoreKeepsReferencesIff(m: Book, s: seq<Beneficiary>)
    requires Indexed(m) && Lists(m.byId, s, BeneficiaryId) && Sorted(s, ByKey(BeneficiaryId))
    ensures Restored(Book(map[], map[]), s).byId == m.byId
    ensures Restored(Book(map[], map[]), s).byRef == m.byRef <==> LatestIsGreatest(m)
  {
    hide AtMost, Restored, Sorted;
    var r := Restored(Book(map[], map[]), s);
    RestoredFiles(Book(map[], map[]), s);
    FiledRebuilds(m.byId, s, BeneficiaryId);
    ListedRecords(m, s);
    forall ref ensures ref in r.byRef <==> ref in m.byRef
      ensures ref in r.byRef ==> r.byRef[ref] in m.byId && m.byId[r.byRef[ref]].externalRef == ref
      ensures forall k :: k in m.byId && m.byId[k].externalRef == ref && ref in r.byRef ==> AtMost(k, r.byRef[ref])
    {
      RestoredRefs(s, ref);
      if ref in m.byRef {
        var b := m.byId[m.byRef[ref]];
        var i :| 0 <= i < |s| && s[i] == b;
      }
      forall k | k in m.byId && m.byId[k].externalRef == ref && ref in r.byRef ensures AtMost(k, r.byRef[ref]) {
        var i :| 0 <= i < |s| && s[i] == m.byId[k];
        assert s[i].id == k;
      }
    }
    if LatestIsGreatest(m) {
      forall ref | ref in m.byRef ensures r.byRef[ref] == m.byRef[ref] {
        AtMostTotal(r.byRef[ref], m.byRef[ref]);
        assert AtMost(m.byRef[ref], r.byRef[ref]);
        assert AtMost(r.byRef[ref], m.byRef[ref]);
      }
    }
  }

  lemma ListedRecords(m: Book, s: seq<Beneficiary>)
    requires KeyedBy(m.byId, BeneficiaryId) && Lists(m.byId, s, BeneficiaryId)
    ensures forall i :: 0 <= i < |s| ==> s[i].id in m.byId && m.byId[s[i].id] == s[i]
    ensures forall k :: k in m.byId ==> m.byId[k].id == k && m.byId[k] in s
  {
    forall i | 0 <= i < |s| ensures s[i].id in m.byId && m.byId[s[i].id] == s[i] {
      InMultiset(s, s[i]);
      assert BeneficiaryId(s[i]) == s[i].id;
    }
    forall k | k in m.byId ensures m.byId[k].id == k && m.byId[k] in s {
      assert BeneficiaryId(m.byId[k]) == k;
      InMultiset(s, m.byId[k]);
    }
  }

  /** One reference registered as b and then as a: it means a, and after a restart b. */
  lemma CorrectionUndone(x: Beneficiary, y: Beneficiary)
    requires x.id == "b" && y.id == "a" && x.externalRef == y.externalRef == "mid-1"
    ensures var m := RegisterAll(NO_BENEFICIARIES, [x, y]);
      && Resolve(m, "mid-1") == Some(y)
      && Lists(m.byId, [y, x], BeneficiaryId) && Sorted([y, x], ByKey(BeneficiaryId))
      && Resolve(Restored(NO_BENEFICIARIES, [y, x]), "mid-1") == Some(x)
  {
    assert [x, y][..1] == [x] && [x][..0] == [];
    assert [y, x][..1] == [y] && [y][..0] == [];
    assert RegisterAll(NO_BENEFICIARIES, [x]) == Registered(NO_BENEFICIARIES, x);
    var m := RegisterAll(NO_BENEFICIARIES, [x, y]);
    assert m == Registered(Registered(NO_BENEFICIARIES, x), y);
    assert Restored(NO_BENEFICIARIES, [y]) == Registered(NO_BENEFICIARIES, y);
    assert Restored(NO_BENEFICIARIES, [y, x]) == Registered(Registered(NO_BENEFICIARIES, y), x);
    assert AtMost("a", "b");
    forall v
      ensures multiset([y, x])[v] == if BeneficiaryId(v) in m.byId && m.byId[BeneficiaryId(v)] == v then 1 else 0
    {
    }
  }
}
