/** Interleaved boarding calls, restarts included, and what they keep. */
module BoardingLaws {
  import opened Text
  import opened Sorting
  import opened Snapshots
  import opened Boarding

  /** tasks are the calls between their two critical sections; taken are the snapshots some persist has in hand and
      has not written yet; file is what the state file holds. */
  datatype World = World(d: Dir, tasks: seq<Task>, taken: seq<State>, file: State)

  const NO_STATE: State := State([], [], [], [], [], [])

  const NEW_WORLD: World := World(NEW_DIR, [], [], NO_STATE)

  datatype Step =
    | CreateCompany(p: CompanyParams, id: string, addressId: string, ts: string)
    | AddAddress(companyId: string, address: AddressParams, id: string, ts: string)
    | LookForPerson(companyId: string, person: PersonParams)
    | LookForExtended(companyId: string, profile: ProfileParams)
    | Finish(i: nat, id: string, ts: string)
    | AddDocument(document: DocumentParams, id: string, ts: string)
    | AddViban(companyId: string, currency: string, id: string, ts: string)
    | ScreenCompany(companyId: string, status: string, ts: string)
    | ScreenPerson(id: string, status: string, pep: string, ts: string)
    | Take(state: State)
    | Save(i: nat)
    | Restart

  /** Ids of companies and people are fresh when handed out. */
  ghost predicate Enabled(w: World, s: Step) {
    match s
    case CreateCompany(_, id, _, _) => id !in w.d.companies
    case Finish(i, id, _) => i < |w.tasks| && (w.tasks[i].PersonTask? ==> id !in w.d.people)
    case Take(state) => IsSnapshot(w.d, state)
    case Save(i) => i < |w.taken|
    case _ => true
  }

  function Done(d: Dir, r: Result<Dir, BoardingError>): Dir {
    if r.Ok? then r.value else d
  }

  function Looked(w: World, r: Result<Task, BoardingError>): World {
    if r.Ok? then w.(tasks := w.tasks + [r.value]) else w
  }

  function Finished(d: Dir, t: Task, id: string, ts: string): Dir {
    if t.PersonTask? then Done(d, PersonAdded(d, t, id, ts)) else Done(d, ProfileAdded(d, t, id, ts))
  }

  /** One critical section. persist takes its snapshot in one step and writes it in a later one, so an older
      snapshot may be written last; a restart has the file and nothing else. */
  function Apply(w: World, s: Step): World
    requires s.Finish? ==> s.i < |w.tasks|
    requires s.Save? ==> s.i < |w.taken|
  {
    match s
    case CreateCompany(p, id, adr, ts) => w.(d := Done(w.d, CompanyCreated(w.d, p, id, adr, ts)))
    case AddAddress(cid, p, id, ts) => w.(d := Done(w.d, AddressAdded(w.d, cid, p, id, ts)))
    case LookForPerson(cid, p) => Looked(w, PersonLooked(w.d, cid, p))
    case LookForExtended(cid, p) => Looked(w, ProfileLooked(w.d, cid, p))
    case Finish(i, id, ts) => w.(d := Finished(w.d, w.tasks[i], id, ts), tasks := w.tasks[..i] + w.tasks[i + 1..])
    case AddDocument(p, id, ts) => w.(d := DocumentAdded(w.d, p, id, ts))
    case AddViban(cid, currency, id, ts) => w.(d := Done(w.d, VibanAdded(w.d, cid, currency, id, ts)))
    case ScreenCompany(cid, status, ts) => w.(d := Done(w.d, CompanyScreened(w.d, cid, status, ts)))
    case ScreenPerson(id, status, pep, ts) => w.(d := Done(w.d, PersonScreened(w.d, id, status, pep, ts)))
    case Take(state) => w.(taken := w.taken + [state])
    case Save(i) => w.(taken := w.taken[..i] + w.taken[i + 1..], file := w.taken[i])
    case Restart => World(Restored(NEW_DIR, w.file), [], [], w.file)
  }

  ghost predicate Legal(w: World, steps: seq<Step>)
    decreases |steps|
  {
    steps == [] || (Enabled(w, steps[0]) && Legal(Apply(w, steps[0]), steps[1..]))
  }

  function Run(w: World, steps: seq<Step>): World
    requires Legal(w, steps)
    decreases |steps|
  {
    if steps == [] then w else Run(Apply(w, steps[0]), steps[1..])
  }

  // -------------------------------------------------------------- invariant

  ghost predicate CompaniesFiled(cs: map<string, Company>) {
    KeyedBy(cs, CompanyId)
  }

  /** The reference index is exactly the companies' references. */
  ghost predicate RefsAgree(cs: map<string, Company>, refs: map<string, string>) {
    && (forall r :: r in refs ==> r != "" && refs[r] in cs && cs[refs[r]].externalRef == r)
    && (forall c :: c in cs && cs[c].externalRef != "" ==> cs[c].externalRef in refs && refs[cs[c].externalRef] == c)
  }

  ghost predicate AddressesSound(cs: map<string, Company>, adrs: map<string, seq<CompanyAddress>>) {
    OwnedBy(adrs, AddressOwner) && forall c :: c in adrs ==> c in cs
  }

  /** Each company's list names its people, each once. */
  ghost predicate PeopleListed(cs: map<string, Company>, people: map<string, Person>, lists: map<string, seq<string>>) {
    && KeyedBy(people, PersonId)
    && (forall k :: k in people ==> people[k].companyId in cs && k in ListAt(lists, people[k].companyId))
    && (forall c, k :: k in ListAt(lists, c) ==> k in people && people[k].companyId == c)
    && (forall c :: Distinct(ListAt(lists, c)))
  }

  /** A natural person has a name and a birthday and, on an unwaived company, every document field. */
  predicate PersonComplete(p: Person, waived: bool) {
    if p.entityType == NATURAL_PERSON
    then && !Blank(p.firstName) && !Blank(p.lastName) && !Blank(p.dateOfBirth)
         && (waived || DocumentFields(p.documentType, p.documentNumber, p.documentCountry))
    else p.entityType == LEGAL_ENTITY && !Blank(p.legalName)
  }

  ghost predicate PeopleComplete(cs: map<string, Company>, people: map<string, Person>) {
    forall k :: k in people && people[k].companyId in cs ==>
      PersonComplete(people[k], cs[people[k].companyId].personDocumentsWaived)
  }

  /** One profile per company, with a registry number; its documents exist, and there are some unless waived. */
  ghost predicate ProfilesSound(cs: map<string, Company>, extended: map<string, Profile>, docs: map<string, Document>) {
    && KeyedBy(extended, ProfileOwner)
    && (forall c :: c in extended ==>
          && c in cs && !Blank(extended[c].registeredCompanyNo)
          && (cs[c].companyDocumentsWaived || extended[c].documents != [])
          && forall k :: k in extended[c].documents ==> k in docs)
  }

  /** One vIBAN per company and currency, the currency three letters long. */
  ghost predicate VibansSound(cs: map<string, Company>, vibans: map<string, seq<Viban>>) {
    && OwnedBy(vibans, VibanOwner)
    && (forall c :: c in vibans ==> c in cs)
    && (forall c, v :: v in ListAt(vibans, c) ==> ByteLength(v.currency) == 3 && multiset(ListAt(vibans, c))[v] == 1)
    && (forall c, v, u :: v in ListAt(vibans, c) && u in ListAt(vibans, c) && v.currency == u.currency ==> v == u)
  }

  ghost predicate Sound(d: Dir) {
    && CompaniesFiled(d.companies) && RefsAgree(d.companies, d.companiesByRef)
    && AddressesSound(d.companies, d.addresses)
    && PeopleListed(d.companies, d.people, d.peopleByCompany) && PeopleComplete(d.companies, d.people)
    && ProfilesSound(d.companies, d.extended, d.documents) && KeyedBy(d.documents, DocumentId)
    && VibansSound(d.companies, d.vibans)
  }

  /** What a call read in its first section still holds in its second. */
  predicate TaskCurrent(d: Dir, t: Task) {
    && t.cid in d.companies
    && match t
       case PersonTask(cid, waived, _) => waived == d.companies[cid].personDocumentsWaived
       case ProfileTask(cid, waived, unknown, p) =>
         && waived == d.companies[cid].companyDocumentsWaived
         && (unknown == [] ==> forall i :: 0 <= i < |p.documents| ==> p.documents[i] in d.documents)
  }

  /** A file that was a snapshot of some sound directory, and so is one of the directory it restores. */
  ghost predicate FileSound(f: State) {
    Sound(Restored(NEW_DIR, f)) && IsSnapshot(Restored(NEW_DIR, f), f)
  }

  ghost predicate FilesSound(w: World) {
    FileSound(w.file) && forall i :: 0 <= i < |w.taken| ==> FileSound(w.taken[i])
  }

  ghost predicate Settled(w: World) {
    && Sound(w.d) && FilesSound(w)
    && forall i :: 0 <= i < |w.tasks| ==> TaskCurrent(w.d, w.tasks[i])
  }

  /** The companies of cs are still in ds, as they were boarded; screening may have moved. */
  ghost predicate Keeps(cs: map<string, Company>, ds: map<string, Company>) {
    forall c :: c in cs ==>
      c in ds && ds[c].externalRef == cs[c].externalRef
      && ds[c].companyDocumentsWaived == cs[c].companyDocumentsWaived
      && ds[c].personDocumentsWaived == cs[c].personDocumentsWaived
  }

  lemma KeptCompanies(d: Dir, cs: map<string, Company>)
    requires Sound(d) && Keeps(d.companies, cs)
    ensures AddressesSound(cs, d.addresses)
    ensures PeopleListed(cs, d.people, d.peopleByCompany)
    ensures ProfilesSound(cs, d.extended, d.documents)
    ensures VibansSound(cs, d.vibans)
  {
    hide Blank, RefsAgree, PersonComplete, PeopleComplete;
    assert AddressesSound(cs, d.addresses) by { hide VibansSound, ProfilesSound, PeopleListed; }
    assert PeopleListed(cs, d.people, d.peopleByCompany) by { hide VibansSound, ProfilesSound, AddressesSound; }
    assert ProfilesSound(cs, d.extended, d.documents) by { hide VibansSound, AddressesSound, PeopleListed; }
    assert VibansSound(cs, d.vibans) by { hide AddressesSound, ProfilesSound, PeopleListed; }
  }

  lemma KeptComplete(cs: map<string, Company>, ds: map<string, Company>, people: map<string, Person>,
                     lists: map<string, seq<string>>)
    requires PeopleListed(cs, people, lists) && PeopleComplete(cs, people) && Keeps(cs, ds)
    ensures PeopleComplete(ds, people)
  {
    hide PersonComplete, KeyedBy, Distinct, ListAt;
  }

  // ---------------------------------------------------------- each operation

  lemma CreateKeepsRefs(cs: map<string, Company>, refs: map<string, string>, c: Company)
    requires RefsAgree(cs, refs) && c.id !in cs && c.externalRef !in refs
    ensures RefsAgree(cs[c.id := c], if c.externalRef != "" then refs[c.externalRef := c.id] else refs)
  {
  }

  lemma AddressKept(cs: map<string, Company>, adrs: map<string, seq<CompanyAddress>>, a: CompanyAddress)
    requires AddressesSound(cs, adrs) && a.companyId in cs
    ensures AddressesSound(cs, adrs[a.companyId := ListAt(adrs, a.companyId) + [a]])
  {
    OwnedAppended(adrs, AddressOwner, a);
    assert AddressOwner(a) == a.companyId;
  }

  lemma CreateKeeps(d: Dir, p: CompanyParams, id: string, adr: string, ts: string)
    requires Sound(d) && id !in d.companies
    ensures var e := Done(d, CompanyCreated(d, p, id, adr, ts));
      Sound(e) && Keeps(d.companies, e.companies) && e.documents == d.documents
  {
    hide CompanyAccepted, RefsAgree, AddressesSound, PeopleListed, PeopleComplete, ProfilesSound, VibansSound;
    var r := CompanyCreated(d, p, id, adr, ts);
    if r.Ok? {
      var c := NewCompany(p, id, ts);
      assert p.externalRef !in d.companiesByRef by { NoEmptyRef(d.companies, d.companiesByRef); }
      CreateKeepsRefs(d.companies, d.companiesByRef, c);
      KeptCompanies(d, r.value.companies);
      KeptComplete(d.companies, r.value.companies, d.people, d.peopleByCompany);
      assert p.address.Some? by { AcceptedHasAddress(p); }
      AddressKept(r.value.companies, d.addresses, CompanyAddress(adr, id, "registered", p.address.value, ts));
    }
  }

  lemma NoEmptyRef(cs: map<string, Company>, refs: map<string, string>)
    requires RefsAgree(cs, refs)
    ensures "" !in refs
  {
  }

  lemma ResolvedIsCompany(d: Dir, id: string)
    requires RefsAgree(d.companies, d.companiesByRef) && Resolve(d, id).Some?
    ensures Resolve(d, id).value in d.companies
  {
  }

  lemma AddressKeeps(d: Dir, companyId: string, p: AddressParams, id: string, ts: string)
    requires Sound(d)
    ensures var e := Done(d, AddressAdded(d, companyId, p, id, ts));
      Sound(e) && e.companies == d.companies && e.documents == d.documents
  {
    hide AddressAccepted, Blank, RefsAgree, AddressesSound, PeopleListed, PeopleComplete, ProfilesSound;
    hide VibansSound, Resolve;
    if AddressAdded(d, companyId, p, id, ts).Ok? {
      ResolvedIsCompany(d, companyId);
      AddressKept(d.companies, d.addresses, CompanyAddress(id, Resolve(d, companyId).value, p.kind, p.address, ts));
    }
  }

  lemma {:induction false} NothingUnknown(d: Dir, refs: seq<string>)
    ensures Unknown(d, refs) == [] <==> forall i :: 0 <= i < |refs| ==> refs[i] in d.documents
  {
    if refs != [] {
      NothingUnknown(d, refs[..|refs| - 1]);
      assert forall i :: 0 <= i < |refs| - 1 ==> refs[i] == refs[..|refs| - 1][i];
    }
  }

  lemma PersonFiled(cs: map<string, Company>, people: map<string, Person>, lists: map<string, seq<string>>, p: Person)
    requires PeopleListed(cs, people, lists) && p.companyId in cs && p.id !in people
    ensures PeopleListed(cs, people[p.id := p], lists[p.companyId := ListAt(lists, p.companyId) + [p.id]])
  {
    Appended(lists, p.companyId, p.id);
    var people' := people[p.id := p];
    var lists' := lists[p.companyId := ListAt(lists, p.companyId) + [p.id]];
    forall k | k in people' ensures people'[k].companyId in cs && k in ListAt(lists', people'[k].companyId) {
      if k != p.id {
        assert k in ListAt(lists, people[k].companyId);
      }
    }
    forall c ensures p.id !in ListAt(lists, c)
      ensures Distinct(ListAt(lists', c))
    {
      assert Distinct(ListAt(lists, c));
    }
    forall c, k | k in ListAt(lists', c) ensures k in people' && people'[k].companyId == c {
      assert k in ListAt(lists, c) || (c == p.companyId && k == p.id);
    }
  }

  lemma ValidPersonComplete(t: Task, id: string, ts: string)
    requires t.PersonTask? && ValidatePerson(t.person, t.waived).None?
    ensures PersonComplete(NewPerson(t.cid, t.person, id, ts), t.waived)
  {
    hide Blank, DocumentFields;
  }

  lemma PersonKeeps(d: Dir, t: Task, id: string, ts: string)
    requires Sound(d) && t.PersonTask? && TaskCurrent(d, t) && id !in d.people
    ensures var e := Done(d, PersonAdded(d, t, id, ts));
      Sound(e) && e.companies == d.companies && e.documents == d.documents
  {
    hide ValidatePerson, RefsAgree, AddressesSound, PeopleListed, ProfilesSound, VibansSound, PersonComplete;
    if PersonAdded(d, t, id, ts).Ok? {
      ValidPersonComplete(t, id, ts);
      PersonFiled(d.companies, d.people, d.peopleByCompany, NewPerson(t.cid, t.person, id, ts));
    }
  }

  lemma ProfileFiled(cs: map<string, Company>, extended: map<string, Profile>, docs: map<string, Document>, p: Profile)
    requires ProfilesSound(cs, extended, docs) && p.companyId in cs && !Blank(p.registeredCompanyNo)
    requires cs[p.companyId].companyDocumentsWaived || p.documents != []
    requires forall i :: 0 <= i < |p.documents| ==> p.documents[i] in docs
    ensures ProfilesSound(cs, extended[p.companyId := p], docs)
  {
    hide Blank;
  }

  lemma ProfileKeeps(d: Dir, t: Task, id: string, ts: string)
    requires Sound(d) && t.ProfileTask? && TaskCurrent(d, t)
    ensures var e := Done(d, ProfileAdded(d, t, id, ts));
      Sound(e) && e.companies == d.companies && e.documents == d.documents
  {
    hide Blank, RefsAgree, AddressesSound, PeopleListed, ProfilesSound, VibansSound, PeopleComplete;
    if ProfileAdded(d, t, id, ts).Ok? {
      ProfileFiled(d.companies, d.extended, d.documents, NewProfile(t, id, ts));
    }
  }

  lemma DocumentKeeps(d: Dir, p: DocumentParams, id: string, ts: string)
    requires Sound(d)
    ensures var e := DocumentAdded(d, p, id, ts);
      Sound(e) && e.companies == d.companies && d.documents.Keys <= e.documents.Keys
  {
    hide Blank, RefsAgree, AddressesSound, PeopleListed, PeopleComplete, VibansSound;
  }

  lemma VibanFiled(cs: map<string, Company>, vibans: map<string, seq<Viban>>, v: Viban)
    requires VibansSound(cs, vibans) && v.companyId in cs && ByteLength(v.currency) == 3
    requires !HasCurrency(ListAt(vibans, v.companyId), v.currency)
    ensures VibansSound(cs, vibans[v.companyId := ListAt(vibans, v.companyId) + [v]])
  {
    hide HasCurrency;
    var list := ListAt(vibans, v.companyId);
    Appended(vibans, v.companyId, v);
    OwnedAppended(vibans, VibanOwner, v);
    assert VibanOwner(v) == v.companyId;
    NewCurrency(list, v);
    var vibans' := vibans[v.companyId := list + [v]];
    forall c, u: Viban | u in ListAt(vibans', c)
      ensures ByteLength(u.currency) == 3 && multiset(ListAt(vibans', c))[u] == 1
    {
      InMultiset(ListAt(vibans, c), u);
      assert u in ListAt(vibans, c) || (c == v.companyId && u == v);
    }
    forall c, u: Viban, t: Viban | u in ListAt(vibans', c) && t in ListAt(vibans', c) && u.currency == t.currency
      ensures u == t
    {
      assert u in ListAt(vibans, c) || (c == v.companyId && u == v);
      assert t in ListAt(vibans, c) || (c == v.companyId && t == v);
    }
    assert OwnedBy(vibans', VibanOwner);
    assert forall c :: c in vibans' ==> c in cs;
    assert forall c, u: Viban :: u in ListAt(vibans', c) ==>
      ByteLength(u.currency) == 3 && multiset(ListAt(vibans', c))[u] == 1;
    assert forall c, x: Viban, u: Viban ::
      x in ListAt(vibans', c) && u in ListAt(vibans', c) && x.currency == u.currency ==> x == u;
  }

  lemma NewCurrency(list: seq<Viban>, v: Viban)
    requires !HasCurrency(list, v.currency)
    ensures forall u: Viban :: u in list ==> u.currency != v.currency
    ensures multiset(list)[v] == 0
  {
    forall u: Viban | u in list ensures u.currency != v.currency {
      var i :| 0 <= i < |list| && list[i] == u;
    }
    InMultiset(list, v);
  }

  lemma VibanKeeps(d: Dir, companyId: string, currency: string, id: string, ts: string)
    requires Sound(d)
    ensures var e := Done(d, VibanAdded(d, companyId, currency, id, ts));
      Sound(e) && e.companies == d.companies && e.documents == d.documents
  {
    hide TrimSpace, Upper, RefsAgree, AddressesSound, PeopleListed, PeopleComplete, ProfilesSound, VibansSound;
    hide Resolve, HasCurrency;
    if VibanAdded(d, companyId, currency, id, ts).Ok? {
      ResolvedIsCompany(d, companyId);
      var cid := Resolve(d, companyId).value;
      var ccy := Upper(TrimSpace(currency));
      if !HasCurrency(ListAt(d.vibans, cid), ccy) {
        VibanFiled(d.companies, d.vibans, Viban(id, cid, ccy, ts));
      }
    }
  }

  lemma ScreenedRefs(cs: map<string, Company>, refs: map<string, string>, cid: string, c: Company)
    requires RefsAgree(cs, refs) && cid in cs && c.externalRef == cs[cid].externalRef
    ensures RefsAgree(cs[cid := c], refs)
  {
  }

  lemma ScreenCompanyKeeps(d: Dir, companyId: string, status: string, ts: string)
    requires Sound(d)
    ensures var e := Done(d, CompanyScreened(d, companyId, status, ts));
      Sound(e) && Keeps(d.companies, e.companies) && e.documents == d.documents
  {
    hide RefsAgree, AddressesSound, PeopleListed, PeopleComplete, ProfilesSound, VibansSound, Resolve, SanctionsAllowed;
    var r := CompanyScreened(d, companyId, status, ts);
    if r.Ok? {
      var cid := Resolve(d, companyId).value;
      ScreenedRefs(d.companies, d.companiesByRef, cid, r.value.companies[cid]);
      KeptCompanies(d, r.value.companies);
      KeptComplete(d.companies, r.value.companies, d.people, d.peopleByCompany);
    }
  }

  lemma PersonReplaced(cs: map<string, Company>, people: map<string, Person>, lists: map<string, seq<string>>,
                       p: Person)
    requires PeopleListed(cs, people, lists) && PeopleComplete(cs, people)
    requires p.id in people && p.companyId == people[p.id].companyId
    requires forall waived :: PersonComplete(people[p.id], waived) ==> PersonComplete(p, waived)
    ensures PeopleListed(cs, people[p.id := p], lists) && PeopleComplete(cs, people[p.id := p])
  {
    hide PersonComplete;
  }

  lemma ScreenPersonKeeps(d: Dir, id: string, status: string, pep: string, ts: string)
    requires Sound(d)
    ensures var e := Done(d, PersonScreened(d, id, status, pep, ts));
      Sound(e) && e.companies == d.companies && e.documents == d.documents
  {
    hide Blank, DocumentFields, RefsAgree, AddressesSound, PeopleListed, PeopleComplete, ProfilesSound, VibansSound;
    hide SanctionsAllowed;
    var r := PersonScreened(d, id, status, pep, ts);
    if r.Ok? {
      assert d.people[id].id == id by { PeopleFiled(d); }
      PersonReplaced(d.companies, d.people, d.peopleByCompany, r.value.people[id]);
    }
  }

  lemma PeopleFiled(d: Dir)
    requires PeopleListed(d.companies, d.people, d.peopleByCompany)
    ensures forall k :: k in d.people ==> d.people[k].id == k
  {
  }

  // ---------------------------------------------------------------- restart

  predicate HasRef(s: seq<Company>, ref: string) {
    exists i :: 0 <= i < |s| && s[i].externalRef == ref != ""
  }

  /** The index after filing s: the last company of s with the reference, or what was there. */
  lemma {:induction false} RefsOfMeaning(refs: map<string, string>, s: seq<Company>, ref: string)
    ensures var m := RefsOf(refs, s);
      && (ref in m <==> ref in refs || HasRef(s, ref))
      && (HasRef(s, ref) ==> exists i :: 0 <= i < |s| && s[i].externalRef == ref != "" && m[ref] == s[i].id)
      && (!HasRef(s, ref) && ref in m ==> m[ref] == refs[ref])
  {
    if s != [] {
      var n := |s| - 1;
      RefsOfMeaning(refs, s[..n], ref);
      assert forall i :: 0 <= i < n ==> s[..n][i] == s[i];
      if s[n].externalRef == ref != "" {
        assert HasRef(s, ref);
      } else {
        if i :| 0 <= i < |s| && s[i].externalRef == ref != "" {
          assert s[..n][i].externalRef == ref;
        }
        if HasRef(s[..n], ref) {
          var i :| 0 <= i < n && s[..n][i].externalRef == ref != "" && RefsOf(refs, s[..n])[ref] == s[..n][i].id;
          assert s[i].externalRef == ref;
        }
      }
    }
  }

  lemma ListsMember<V(!new)>(m: map<string, V>, s: seq<V>, key: V -> string)
    requires KeyedBy(m, key) && Lists(m, s, key)
    ensures forall v :: v in s <==> key(v) in m && m[key(v)] == v
    ensures Distinct(s)
    ensures forall i, j :: 0 <= i < j < |s| ==> key(s[i]) != key(s[j])
  {
    forall v ensures v in s <==> key(v) in m && m[key(v)] == v
      ensures v in s ==> multiset(s)[v] == 1
    {
      InMultiset(s, v);
    }
    DistinctMultiset(s);
    forall i, j | 0 <= i < j < |s| ensures key(s[i]) != key(s[j]) {
      assert s[i] in s && s[j] in s && s[i] != s[j];
    }
  }

  /** Filing a listing of sound companies over an index: their references are right, and older ones remain. */
  lemma RefsOver(e: Dir, refs: map<string, string>, s: seq<Company>, ref: string)
    requires CompaniesFiled(e.companies) && RefsAgree(e.companies, e.companiesByRef) && Lists(e.companies, s, CompanyId)
    ensures var m := RefsOf(refs, s);
      && (ref in m <==> ref in refs || ref in e.companiesByRef)
      && (ref in e.companiesByRef ==> m[ref] == e.companiesByRef[ref])
  {
    ListsMember(e.companies, s, CompanyId);
    RefsOfMeaning(refs, s, ref);
    if HasRef(s, ref) {
      var i :| 0 <= i < |s| && s[i].externalRef == ref != "" && RefsOf(refs, s)[ref] == s[i].id;
      assert s[i] in s && CompanyId(s[i]) == s[i].id;
    }
    if ref in e.companiesByRef {
      var c := e.companies[e.companiesByRef[ref]];
      assert CompanyId(c) == e.companiesByRef[ref];
      assert c in s;
      var i :| 0 <= i < |s| && s[i] == c;
      assert HasRef(s, ref);
    }
  }

  lemma RefsRebuilt(d: Dir, s: seq<Company>)
    requires CompaniesFiled(d.companies) && RefsAgree(d.companies, d.companiesByRef) && Lists(d.companies, s, CompanyId)
    ensures RefsOf(map[], s) == d.companiesByRef
  {
    hide CompaniesFiled, RefsAgree, Lists;
    forall ref ensures ref in RefsOf(map[], s) <==> ref in d.companiesByRef
      ensures ref in d.companiesByRef ==> RefsOf(map[], s)[ref] == d.companiesByRef[ref]
    {
      RefsOver(d, map[], s, ref);
    }
  }

  /** The rebuilt people lists, when no id comes twice. */
  lemma {:induction false} PeopleListsMeaning(s: seq<Person>, c: string)
    requires forall i, j :: 0 <= i < j < |s| ==> s[i].id != s[j].id
    ensures var list := ListAt(PeopleLists(map[], s), c);
      && Distinct(list)
      && (forall k :: k in list <==> exists i :: 0 <= i < |s| && s[i].id == k && s[i].companyId == c)
  {
    if s != [] {
      var n := |s| - 1;
      PeopleListsMeaning(s[..n], c);
      var before := ListAt(PeopleLists(map[], s[..n]), c);
      var list := ListAt(PeopleLists(map[], s), c);
      assert list == before + if s[n].companyId == c then [s[n].id] else [];
      forall k ensures k in before <==> exists i :: 0 <= i < n && s[i].id == k && s[i].companyId == c {
        if i :| 0 <= i < n && s[i].id == k && s[i].companyId == c {
          assert s[..n][i].id == k;
        }
        if i :| 0 <= i < |s[..n]| && s[..n][i].id == k && s[..n][i].companyId == c {
          assert s[i].id == k;
        }
      }
      assert s[n].id !in before;
    }
  }

  lemma PeopleListsRebuilt(d: Dir, s: seq<Person>, c: string)
    requires PeopleListed(d.companies, d.people, d.peopleByCompany) && Lists(d.people, s, PersonId)
    ensures multiset(ListAt(PeopleLists(map[], s), c)) == multiset(ListAt(d.peopleByCompany, c))
    ensures Distinct(ListAt(PeopleLists(map[], s), c))
  {
    ListsMember(d.people, s, PersonId);
    forall i, j | 0 <= i < j < |s| ensures s[i].id != s[j].id {
      assert PersonId(s[i]) != PersonId(s[j]);
    }
    PeopleListsMeaning(s, c);
    var list, was := ListAt(PeopleLists(map[], s), c), ListAt(d.peopleByCompany, c);
    forall k ensures k in list <==> k in was {
      if k in list {
        var i :| 0 <= i < |s| && s[i].id == k && s[i].companyId == c;
        assert s[i] in s && PersonId(s[i]) == k;
      }
      if k in was {
        assert PersonId(d.people[k]) == k;
        assert d.people[k] in s;
        var i :| 0 <= i < |s| && s[i] == d.people[k];
        assert s[i].companyId == c;
      }
    }
    DistinctSameMembers(list, was);
  }

  /** Equal records and indexes; per-company lists equal up to their order. */
  ghost predicate SameBook(d: Dir, e: Dir) {
    && d.companies == e.companies && d.companiesByRef == e.companiesByRef
    && d.people == e.people && d.extended == e.extended && d.documents == e.documents
    && SameLists(d.addresses, e.addresses) && SameLists(d.peopleByCompany, e.peopleByCompany)
    && SameLists(d.vibans, e.vibans)
  }

  /** Restore of a Snapshot, into a fresh directory, rebuilds every map. */
  lemma RestoreRebuilds(d: Dir, s: State)
    requires Sound(d) && IsSnapshot(d, s)
    ensures SameBook(d, Restored(NEW_DIR, s))
  {
    hide RefsAgree, PeopleListed, PeopleComplete, Blank, Lists, ListsAll, KeyedBy, OwnedBy, Sorted, SameLists, Distinct;
    KeysOfSound(d);
    FiledRebuilds(d.companies, s.companies, CompanyId);
    RefsRebuilt(d, s.companies);
    GroupedRebuilds(d.addresses, s.addresses, AddressOwner);
    FiledRebuilds(d.people, s.people, PersonId);
    FiledRebuilds(d.extended, s.extended, ProfileOwner);
    FiledRebuilds(d.documents, s.documents, DocumentId);
    GroupedRebuilds(d.vibans, s.vibans, VibanOwner);
    PeopleListsSame(d, s.people);
  }

  lemma PeopleListsSame(d: Dir, s: seq<Person>)
    requires PeopleListed(d.companies, d.people, d.peopleByCompany) && Lists(d.people, s, PersonId)
    ensures SameLists(d.peopleByCompany, PeopleLists(map[], s))
  {
    hide PeopleListed, Lists;
    forall c ensures multiset(ListAt(d.peopleByCompany, c)) == multiset(ListAt(PeopleLists(map[], s), c)) {
      PeopleListsRebuilt(d, s, c);
    }
  }

  /** Any invariant directory can be saved. */
  lemma KeysOfSound(d: Dir)
    requires Sound(d)
    ensures Keyed(d)
  {
    hide RefsAgree, PeopleComplete, Blank, Distinct;
  }

  /** Directories with the same book have the same state files. */
  lemma SameBookSnapshots(d: Dir, e: Dir, t: State)
    requires SameBook(d, e)
    ensures IsSnapshot(d, t) <==> IsSnapshot(e, t)
  {
    hide Sorted;
    SameListings(d.addresses, e.addresses, t.addresses, AddressOwner);
    SameListings(d.vibans, e.vibans, t.vibans, VibanOwner);
  }

  /** A restored directory has the very state files of the one that was saved. */
  lemma SnapshotsSurvive(d: Dir, s: State, t: State)
    requires Sound(d) && IsSnapshot(d, s)
    ensures IsSnapshot(Restored(NEW_DIR, s), t) <==> IsSnapshot(d, t)
  {
    hide Sound, Restored, SameBook, IsSnapshot;
    RestoreRebuilds(d, s);
    SameBookSnapshots(d, Restored(NEW_DIR, s), t);
  }

  lemma SameListings<V(!new)>(m: map<string, seq<V>>, r: map<string, seq<V>>, t: seq<V>, owner: V -> string)
    requires SameLists(m, r)
    ensures ListsAll(m, t, owner) <==> ListsAll(r, t, owner)
  {
    forall v ensures multiset(ListAt(m, owner(v)))[v] == multiset(ListAt(r, owner(v)))[v] {
    }
  }

  lemma SameListsMember<V(!new)>(m: map<string, seq<V>>, r: map<string, seq<V>>)
    requires SameLists(m, r)
    ensures forall k, v :: v in ListAt(m, k) <==> v in ListAt(r, k)
    ensures forall k, v :: multiset(ListAt(m, k))[v] == multiset(ListAt(r, k))[v]
  {
    forall k, v ensures v in ListAt(m, k) <==> v in ListAt(r, k)
      ensures multiset(ListAt(m, k))[v] == multiset(ListAt(r, k))[v]
    {
      InMultiset(ListAt(m, k), v);
      InMultiset(ListAt(r, k), v);
    }
  }

  /** Lists restored from a file are never empty. */
  lemma {:induction false} GroupedNonEmpty<V(!new)>(s: seq<V>, owner: V -> string)
    ensures forall k :: k in Grouped(map[], s, owner) ==> Grouped(map[], s, owner)[k] != []
  {
    if s != [] {
      GroupedNonEmpty(s[..|s| - 1], owner);
    }
  }

  lemma AddressesRestored(d: Dir, s: State)
    requires AddressesSound(d.companies, d.addresses) && ListsAll(d.addresses, s.addresses, AddressOwner)
    ensures AddressesSound(d.companies, Grouped(map[], s.addresses, AddressOwner))
  {
    var e := Grouped(map[], s.addresses, AddressOwner);
    GroupedRebuilds(d.addresses, s.addresses, AddressOwner);
    GroupedNonEmpty(s.addresses, AddressOwner);
    SameListsMember(d.addresses, e);
    forall c | c in e ensures c in d.companies {
      assert e[c][0] in ListAt(e, c);
      assert e[c][0] in ListAt(d.addresses, c);
    }
  }

  lemma VibansRestored(d: Dir, s: State)
    requires VibansSound(d.companies, d.vibans) && ListsAll(d.vibans, s.vibans, VibanOwner)
    ensures VibansSound(d.companies, Grouped(map[], s.vibans, VibanOwner))
  {
    var e := Grouped(map[], s.vibans, VibanOwner);
    GroupedRebuilds(d.vibans, s.vibans, VibanOwner);
    GroupedNonEmpty(s.vibans, VibanOwner);
    SameListsMember(d.vibans, e);
    forall c | c in e ensures c in d.companies {
      assert e[c][0] in ListAt(e, c);
      assert e[c][0] in ListAt(d.vibans, c);
    }
  }

  lemma PeopleRestored(d: Dir, s: State)
    requires PeopleListed(d.companies, d.people, d.peopleByCompany) && Lists(d.people, s.people, PersonId)
    ensures PeopleListed(d.companies, d.people, PeopleLists(map[], s.people))
  {
    hide Lists, PeopleListed, Distinct, SameLists, PeopleLists, ListAt;
    var lists := PeopleLists(map[], s.people);
    PeopleListsSame(d, s.people);
    SameListsMember(d.peopleByCompany, lists);
    forall c ensures Distinct(ListAt(lists, c)) {
      PeopleListsRebuilt(d, s.people, c);
    }
    PeopleRelisted(d.companies, d.people, d.peopleByCompany, lists);
  }

  lemma PeopleRelisted(cs: map<string, Company>, people: map<string, Person>, lists: map<string, seq<string>>,
                       lists': map<string, seq<string>>)
    requires PeopleListed(cs, people, lists) && forall c :: Distinct(ListAt(lists', c))
    requires forall c, k :: k in ListAt(lists, c) <==> k in ListAt(lists', c)
    ensures PeopleListed(cs, people, lists')
  {
    hide Distinct, ListAt, KeyedBy;
  }

  lemma RestoredSound(d: Dir, s: State)
    requires Sound(d) && IsSnapshot(d, s)
    ensures Sound(Restored(NEW_DIR, s))
  {
    hide RefsAgree, PeopleListed, PeopleComplete, ProfilesSound, VibansSound, AddressesSound, Blank, Lists;
    hide ListsAll, KeyedBy, Sorted, SameLists;
    RestoreRebuilds(d, s);
    AddressesRestored(d, s);
    VibansRestored(d, s);
    PeopleRestored(d, s);
  }

  // ------------------------------------------------------------------- runs

  lemma TaskStays(d: Dir, e: Dir, t: Task)
    requires TaskCurrent(d, t) && Keeps(d.companies, e.companies) && d.documents.Keys <= e.documents.Keys
    ensures TaskCurrent(e, t)
  {
  }

  lemma FinishKeeps(d: Dir, t: Task, id: string, ts: string)
    requires Sound(d) && TaskCurrent(d, t) && (t.PersonTask? ==> id !in d.people)
    ensures var e := Finished(d, t, id, ts);
      Sound(e) && e.companies == d.companies && e.documents == d.documents
  {
    hide Sound, TaskCurrent, PersonAdded, ProfileAdded;
    if t.PersonTask? {
      PersonKeeps(d, t, id, ts);
    } else {
      ProfileKeeps(d, t, id, ts);
    }
  }

  lemma LookedCurrent(d: Dir, companyId: string, person: PersonParams, profile: ProfileParams)
    requires RefsAgree(d.companies, d.companiesByRef)
    ensures PersonLooked(d, companyId, person).Ok? ==> TaskCurrent(d, PersonLooked(d, companyId, person).value)
    ensures ProfileLooked(d, companyId, profile).Ok? ==> TaskCurrent(d, ProfileLooked(d, companyId, profile).value)
  {
    hide Resolve, Unknown;
    NothingUnknown(d, profile.documents);
  }

  /** What one step does to the directory, but for a restart. */
  lemma DirKept(w: World, s: Step)
    requires Settled(w) && Enabled(w, s) && !s.Restart?
    ensures var e := Apply(w, s).d;
      Sound(e) && Keeps(w.d.companies, e.companies) && w.d.documents.Keys <= e.documents.Keys
  {
    hide Sound, TaskCurrent, CompanyCreated, AddressAdded, PersonLooked, ProfileLooked, VibanAdded, CompanyScreened;
    hide PersonScreened;
    hide Finished, DocumentAdded, Done;
    match s {
      case CreateCompany(p, id, adr, ts) => CreateKeeps(w.d, p, id, adr, ts);
      case AddAddress(cid, p, id, ts) => AddressKeeps(w.d, cid, p, id, ts);
      case LookForPerson(cid, p) =>
      case LookForExtended(cid, p) =>
      case Finish(i, id, ts) => FinishKeeps(w.d, w.tasks[i], id, ts);
      case AddDocument(p, id, ts) => DocumentKeeps(w.d, p, id, ts);
      case AddViban(cid, currency, id, ts) => VibanKeeps(w.d, cid, currency, id, ts);
      case ScreenCompany(cid, status, ts) => ScreenCompanyKeeps(w.d, cid, status, ts);
      case ScreenPerson(id, status, pep, ts) => ScreenPersonKeeps(w.d, id, status, pep, ts);
      case _ =>
    }
  }

  lemma SnapshotSound(d: Dir, s: State)
    requires Sound(d) && IsSnapshot(d, s)
    ensures FileSound(s)
  {
    hide Sound, IsSnapshot, Restored;
    RestoredSound(d, s);
    SnapshotsSurvive(d, s, s);
  }

  lemma StepFilesSound(w: World, s: Step)
    requires Settled(w) && Enabled(w, s)
    ensures FilesSound(Apply(w, s))
  {
    hide Sound, TaskCurrent, Finished, PersonLooked, ProfileLooked, Restored, IsSnapshot, FileSound;
    if s.Take? {
      SnapshotSound(w.d, s.state);
    }
  }

  lemma StepTasksCurrent(w: World, s: Step)
    requires Settled(w) && Enabled(w, s) && !s.Restart?
    ensures forall i :: 0 <= i < |Apply(w, s).tasks| ==> TaskCurrent(Apply(w, s).d, Apply(w, s).tasks[i])
  {
    hide Sound, TaskCurrent, Finished, PersonLooked, ProfileLooked, Restored, IsSnapshot, FilesSound, Keeps;
    var v := Apply(w, s);
    DirKept(w, s);
    if s.LookForPerson? {
      LookedSound(w.d, s.companyId, s.person, ProfileParams("", []));
    } else if s.LookForExtended? {
      LookedSound(w.d, s.companyId, PersonParams("", "", "", "", "", "", "", "", ""), s.profile);
    }
    forall i | 0 <= i < |v.tasks| ensures TaskCurrent(v.d, v.tasks[i]) {
      if (s.LookForPerson? || s.LookForExtended?) && i == |w.tasks| {
      } else {
        var t := v.tasks[i];
        assert TaskCurrent(w.d, t) by {
          if s.Finish? {
            assert t == if i < s.i then w.tasks[i] else w.tasks[i + 1];
          } else {
            assert t == w.tasks[i];
          }
        }
        TaskStays(w.d, v.d, t);
      }
    }
  }

  /** A step, a restart from whatever file there is included, keeps all of it. */
  lemma StepSettled(w: World, s: Step)
    requires Settled(w) && Enabled(w, s)
    ensures Settled(Apply(w, s))
  {
    hide Sound, TaskCurrent, Finished, PersonLooked, ProfileLooked, Restored, IsSnapshot, FilesSound;
    StepFilesSound(w, s);
    if s.Restart? {
      assert Sound(Restored(NEW_DIR, w.file)) by { FileIsSound(w); }
    } else {
      DirKept(w, s);
      StepTasksCurrent(w, s);
    }
  }

  lemma FileIsSound(w: World)
    requires FilesSound(w)
    ensures Sound(Restored(NEW_DIR, w.file)) && IsSnapshot(Restored(NEW_DIR, w.file), w.file)
  {
  }

  lemma LookedSound(d: Dir, companyId: string, person: PersonParams, profile: ProfileParams)
    requires Sound(d)
    ensures PersonLooked(d, companyId, person).Ok? ==> TaskCurrent(d, PersonLooked(d, companyId, person).value)
    ensures ProfileLooked(d, companyId, profile).Ok? ==> TaskCurrent(d, ProfileLooked(d, companyId, profile).value)
  {
    hide RefsAgree, PersonLooked, ProfileLooked, TaskCurrent, PeopleListed, PeopleComplete, ProfilesSound, VibansSound;
    LookedCurrent(d, companyId, person, profile);
  }

  /** Under any interleaving of the two-phase calls, with stale files written and restarts anywhere. */
  lemma {:induction false} AlwaysSettled(w: World, steps: seq<Step>)
    requires Settled(w) && Legal(w, steps)
    ensures Settled(Run(w, steps))
    decreases |steps|
  {
    hide Settled, Apply;
    if steps != [] {
      StepSettled(w, steps[0]);
      AlwaysSettled(Apply(w, steps[0]), steps[1..]);
    }
  }

  lemma NewDirSound()
    ensures Sound(NEW_DIR)
  {
    hide PersonComplete, Blank;
  }

  lemma NewFileSound()
    ensures FileSound(NO_STATE)
  {
    hide Sound;
    NewDirSound();
    assert Restored(NEW_DIR, NO_STATE) == NEW_DIR;
  }

  lemma NewWorldSettled()
    ensures Settled(NEW_WORLD)
  {
    hide Sound, FileSound;
    NewDirSound();
    NewFileSound();
  }

  lemma SettledFromTheStart(steps: seq<Step>)
    requires Legal(NEW_WORLD, steps)
    ensures Settled(Run(NEW_WORLD, steps))
  {
    NewWorldSettled();
    AlwaysSettled(NEW_WORLD, steps);
  }

  // ----------------------------------------------------------------- lookups

  /** Company references are unique. */
  lemma RefsUnique(d: Dir, a: string, b: string)
    requires Sound(d) && a in d.companies && b in d.companies
    requires d.companies[a].externalRef == d.companies[b].externalRef != ""
    ensures a == b
  {
    hide PeopleListed, PeopleComplete, ProfilesSound, VibansSound, AddressesSound;
  }

  /** Which company an identifier finds: ids first, and a reference exactly when it is no other company's id. */
  lemma ResolveMeaning(d: Dir, x: string)
    requires Sound(d)
    ensures x in d.companies ==> Resolve(d, x) == Some(x)
    ensures forall c :: c in d.companies && d.companies[c].externalRef == x != "" ==>
      (Resolve(d, x) == Some(c) <==> x !in d.companies || x == c)
    ensures Resolve(d, x).None?
      <==> x !in d.companies && forall c :: c in d.companies && x != "" ==> d.companies[c].externalRef != x
  {
    hide PeopleListed, PeopleComplete, ProfilesSound, VibansSound, AddressesSound;
  }
}
