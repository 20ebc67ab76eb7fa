/** What a restart keeps, loses and merges: internal/b4b/state.go against what boarding promises. */
module BoardingRestarts {
  import opened Text
  import opened Sorting
  import opened Snapshots
  import opened Boarding
  import opened BoardingLaws

  // ------------------------------------------------- between two restarts

  /** Nothing boarded is lost or re-owned, and a profile is never rewritten. */
  ghost predicate Endures(d: Dir, e: Dir) {
    && Keeps(d.companies, e.companies)
    && (forall k :: k in d.people ==> k in e.people && e.people[k].companyId == d.people[k].companyId)
    && (forall c :: c in d.extended ==> c in e.extended && e.extended[c] == d.extended[c])
    && d.documents.Keys <= e.documents.Keys
    && (forall c, a :: a in ListAt(d.addresses, c) ==> a in ListAt(e.addresses, c))
    && (forall c, v :: v in ListAt(d.vibans, c) ==> v in ListAt(e.vibans, c))
  }

  lemma CreateEndures(d: Dir, p: CompanyParams, id: string, adr: string, ts: string)
    requires id !in d.companies
    ensures Endures(d, Done(d, CompanyCreated(d, p, id, adr, ts)))
  {
    hide CompanyAccepted, ListAt;
    if CompanyCreated(d, p, id, adr, ts).Ok? {
      assert p.address.Some? by { AcceptedHasAddress(p); }
      Appended(d.addresses, id, CompanyAddress(adr, id, "registered", p.address.value, ts));
    }
  }

  lemma AddressEndures(d: Dir, companyId: string, p: AddressParams, id: string, ts: string)
    ensures Endures(d, Done(d, AddressAdded(d, companyId, p, id, ts)))
  {
    hide AddressAccepted, Blank, Resolve, ListAt;
    if AddressAdded(d, companyId, p, id, ts).Ok? {
      var cid := Resolve(d, companyId).value;
      Appended(d.addresses, cid, CompanyAddress(id, cid, p.kind, p.address, ts));
    }
  }

  lemma MoreVibansEndure(d: Dir, vibans: map<string, seq<Viban>>)
    requires forall c, v :: v in ListAt(d.vibans, c) ==> v in ListAt(vibans, c)
    ensures Endures(d, d.(vibans := vibans))
  {
    hide ListAt;
  }

  lemma VibanEndures(d: Dir, companyId: string, currency: string, id: string, ts: string)
    ensures Endures(d, Done(d, VibanAdded(d, companyId, currency, id, ts)))
  {
    hide Resolve, HasCurrency, Upper, TrimSpace, ListAt, Endures;
    var r := VibanAdded(d, companyId, currency, id, ts);
    MoreVibansEndure(d, d.vibans);
    if r.Ok? {
      var cid := Resolve(d, companyId).value;
      Appended(d.vibans, cid, Viban(id, cid, Upper(TrimSpace(currency)), ts));
      MoreVibansEndure(d, r.value.vibans);
    }
  }

  lemma PersonEndures(d: Dir, t: Task, id: string, ts: string)
    requires t.PersonTask? && id !in d.people
    ensures Endures(d, Done(d, PersonAdded(d, t, id, ts)))
  {
    hide ValidatePerson, ListAt;
  }

  lemma ProfileEndures(d: Dir, t: Task, id: string, ts: string)
    requires t.ProfileTask?
    ensures Endures(d, Done(d, ProfileAdded(d, t, id, ts)))
  {
    hide ValidateProfile, ListAt;
  }

  lemma FinishEndures(d: Dir, t: Task, id: string, ts: string)
    requires t.PersonTask? ==> id !in d.people
    ensures Endures(d, Finished(d, t, id, ts))
  {
    hide Endures, Done, PersonAdded, ProfileAdded;
    if t.PersonTask? {
      PersonEndures(d, t, id, ts);
    } else {
      ProfileEndures(d, t, id, ts);
    }
  }

  lemma DocumentEndures(d: Dir, p: DocumentParams, id: string, ts: string)
    ensures Endures(d, DocumentAdded(d, p, id, ts))
  {
    hide ListAt;
  }

  lemma ScreenCompanyEndures(d: Dir, companyId: string, status: string, ts: string)
    ensures Endures(d, Done(d, CompanyScreened(d, companyId, status, ts)))
  {
    hide Resolve, SanctionsAllowed, ListAt;
  }

  lemma ScreenPersonEndures(d: Dir, id: string, status: string, pep: string, ts: string)
    ensures Endures(d, Done(d, PersonScreened(d, id, status, pep, ts)))
  {
    hide SanctionsAllowed, ListAt;
  }

  lemma SameBookEndures(d: Dir, e: Dir)
    requires SameBook(d, e)
    ensures Endures(d, e)
  {
    hide SameLists, ListAt;
    SameListsMember(d.addresses, e.addresses);
    SameListsMember(d.vibans, e.vibans);
  }

  lemma EnduresTransitive(d: Dir, e: Dir, f: Dir)
    requires Endures(d, e) && Endures(e, f)
    ensures Endures(d, f)
  {
    hide ListAt;
  }

  lemma StepEndures(w: World, s: Step)
    requires Settled(w) && Enabled(w, s) && !s.Restart?
    ensures Endures(w.d, Apply(w, s).d)
  {
    hide Sound, TaskCurrent, Restored, IsSnapshot, SameBook, CompanyCreated, AddressAdded, VibanAdded, CompanyScreened;
    hide PersonScreened, Finished, DocumentAdded, Done, PersonLooked, ProfileLooked, FilesSound;
    match s {
      case CreateCompany(p, id, adr, ts) => CreateEndures(w.d, p, id, adr, ts);
      case AddAddress(cid, p, id, ts) => AddressEndures(w.d, cid, p, id, ts);
      case AddDocument(p, id, ts) => DocumentEndures(w.d, p, id, ts);
      case AddViban(cid, currency, id, ts) => VibanEndures(w.d, cid, currency, id, ts);
      case Finish(i, id, ts) => FinishEndures(w.d, w.tasks[i], id, ts);
      case ScreenCompany(cid, status, ts) => ScreenCompanyEndures(w.d, cid, status, ts);
      case ScreenPerson(id, status, pep, ts) => ScreenPersonEndures(w.d, id, status, pep, ts);
      case _ =>
    }
  }

  // ------------------------------------------------- the file is in the past

  /** Every file, written or about to be, holds nothing the directory does not hold. */
  ghost predicate FilesBehind(w: World) {
    && Endures(Restored(NEW_DIR, w.file), w.d)
    && forall i :: 0 <= i < |w.taken| ==> Endures(Restored(NEW_DIR, w.taken[i]), w.d)
  }

  lemma StepBehind(w: World, s: Step)
    requires Settled(w) && FilesBehind(w) && Enabled(w, s)
    ensures FilesBehind(Apply(w, s))
  {
    hide Sound, TaskCurrent, Restored, IsSnapshot, SameBook, Endures, FilesSound, Finished, PersonLooked, ProfileLooked;
    var v := Apply(w, s);
    if s.Restart? {
      EnduresItself(v.d);
    } else {
      StepEndures(w, s);
      EnduresTransitive(Restored(NEW_DIR, w.file), w.d, v.d);
      forall i | 0 <= i < |w.taken| ensures Endures(Restored(NEW_DIR, w.taken[i]), v.d) {
        EnduresTransitive(Restored(NEW_DIR, w.taken[i]), w.d, v.d);
      }
      if s.Take? {
        RestoreRebuilds(w.d, s.state);
        SameBookSymmetric(w.d, Restored(NEW_DIR, s.state));
        SameBookEndures(Restored(NEW_DIR, s.state), w.d);
      }
    }
  }

  lemma EnduresItself(d: Dir)
    ensures Endures(d, d)
  {
  }

  lemma SameBookSymmetric(d: Dir, e: Dir)
    requires SameBook(d, e)
    ensures SameBook(e, d)
  {
    hide ListAt;
  }

  /** Over any run from the start, whatever files are written and read. */
  lemma {:induction false} AlwaysBehind(w: World, steps: seq<Step>)
    requires Settled(w) && FilesBehind(w) && Legal(w, steps)
    ensures FilesBehind(Run(w, steps))
    decreases |steps|
  {
    hide Settled, FilesBehind, Apply;
    if steps != [] {
      StepSettled(w, steps[0]);
      StepBehind(w, steps[0]);
      AlwaysBehind(Apply(w, steps[0]), steps[1..]);
    }
  }

  lemma BehindFromTheStart(steps: seq<Step>)
    requires Legal(NEW_WORLD, steps)
    ensures FilesBehind(Run(NEW_WORLD, steps))
  {
    assert Restored(NEW_DIR, NO_STATE) == NEW_DIR;
    NewWorldSettled();
    AlwaysBehind(NEW_WORLD, steps);
  }

  // --------------------------------------------- what a restart does not lose

  /** A restart brings everything back as it was, screening included, if and only if the file is a snapshot of the
      directory as it is now. */
  lemma RestartRestoresIff(w: World)
    requires Settled(w)
    ensures SameBook(w.d, Apply(w, Restart).d) <==> IsSnapshot(w.d, w.file)
  {
    hide Sound, Restored, SameBook, IsSnapshot, TaskCurrent;
    FileIsSound(w);
    var r := Restored(NEW_DIR, w.file);
    if SameBook(w.d, r) {
      SameBookSnapshots(w.d, r, w.file);
    }
    if IsSnapshot(w.d, w.file) {
      RestoreRebuilds(w.d, w.file);
    }
  }

  predicate SameBoarding(c: Company, x: Company) {
    c.id == x.id && c.externalRef == x.externalRef
    && c.companyDocumentsWaived == x.companyDocumentsWaived && c.personDocumentsWaived == x.personDocumentsWaived
  }

  /** Each record of the directory is in the file; sanctions statuses may have moved since. */
  ghost predicate Covered(d: Dir, f: State) {
    && (forall c :: c in d.companies ==> exists x :: x in f.companies && SameBoarding(d.companies[c], x))
    && (forall k :: k in d.people ==> exists x :: x in f.people && x.id == k && x.companyId == d.people[k].companyId)
    && (forall c :: c in d.extended ==> d.extended[c] in f.extended)
    && (forall k :: k in d.documents ==> exists x :: x in f.documents && x.id == k)
    && (forall c, a :: a in ListAt(d.addresses, c) ==> a in f.addresses)
    && (forall c, v :: v in ListAt(d.vibans, c) ==> v in f.vibans)
  }

  lemma CompaniesCoveredIff(d: Dir, r: Dir, f: State)
    requires CompaniesFiled(d.companies) && CompaniesFiled(r.companies) && Lists(r.companies, f.companies, CompanyId)
    ensures Keeps(d.companies, r.companies)
      <==> forall c :: c in d.companies ==> exists x :: x in f.companies && SameBoarding(d.companies[c], x)
  {
    ListsMember(r.companies, f.companies, CompanyId);
    forall c | c in d.companies
      ensures (c in r.companies && SameBoarding(d.companies[c], r.companies[c]))
        <==> exists x :: x in f.companies && SameBoarding(d.companies[c], x)
    {
      assert CompanyId(d.companies[c]) == c;
      if c in r.companies {
        assert CompanyId(r.companies[c]) == c && r.companies[c] in f.companies;
      }
      if x :| x in f.companies && SameBoarding(d.companies[c], x) {
        assert CompanyId(x) == c;
      }
    }
    if Keeps(d.companies, r.companies) {
      forall c | c in d.companies ensures exists x :: x in f.companies && SameBoarding(d.companies[c], x) {
        assert CompanyId(d.companies[c]) == c && CompanyId(r.companies[c]) == c;
        assert SameBoarding(d.companies[c], r.companies[c]);
      }
    }
  }

  lemma PeopleCoveredIff(d: Dir, r: Dir, f: State)
    requires KeyedBy(r.people, PersonId) && Lists(r.people, f.people, PersonId)
    ensures (forall k :: k in d.people ==> k in r.people && r.people[k].companyId == d.people[k].companyId)
      <==> forall k :: k in d.people ==> exists x :: x in f.people && x.id == k && x.companyId == d.people[k].companyId
  {
    ListsMember(r.people, f.people, PersonId);
    forall k | k in d.people
      ensures (k in r.people && r.people[k].companyId == d.people[k].companyId)
        <==> exists x :: x in f.people && x.id == k && x.companyId == d.people[k].companyId
    {
      if k in r.people {
        assert PersonId(r.people[k]) == k && r.people[k] in f.people;
      }
      if x :| x in f.people && x.id == k && x.companyId == d.people[k].companyId {
        assert PersonId(x) == k;
      }
    }
  }

  lemma RecordsCoveredIff(d: Dir, r: Dir, f: State)
    requires KeyedBy(d.extended, ProfileOwner) && KeyedBy(r.extended, ProfileOwner)
      && Lists(r.extended, f.extended, ProfileOwner)
    requires KeyedBy(r.documents, DocumentId) && Lists(r.documents, f.documents, DocumentId)
    ensures (forall c :: c in d.extended ==> c in r.extended && r.extended[c] == d.extended[c])
      <==> forall c :: c in d.extended ==> d.extended[c] in f.extended
    ensures d.documents.Keys <= r.documents.Keys
      <==> forall k :: k in d.documents ==> exists x :: x in f.documents && x.id == k
  {
    ListsMember(r.extended, f.extended, ProfileOwner);
    ListsMember(r.documents, f.documents, DocumentId);
    forall c | c in d.extended
      ensures (c in r.extended && r.extended[c] == d.extended[c]) <==> d.extended[c] in f.extended
    {
      assert ProfileOwner(d.extended[c]) == c;
    }
    forall k | k in d.documents ensures k in r.documents <==> exists x :: x in f.documents && x.id == k {
      if k in r.documents {
        assert DocumentId(r.documents[k]) == k && r.documents[k] in f.documents;
      }
      if x :| x in f.documents && x.id == k {
        assert DocumentId(x) == k;
      }
    }
  }

  lemma ListedIff<V(!new)>(r: map<string, seq<V>>, s: seq<V>, owner: V -> string, v: V)
    requires ListsAll(r, s, owner)
    ensures v in ListAt(r, owner(v)) <==> v in s
  {
    hide ListAt;
    InMultiset(ListAt(r, owner(v)), v);
    InMultiset(s, v);
  }

  lemma ListsCoveredIff<V(!new)>(m: map<string, seq<V>>, r: map<string, seq<V>>, s: seq<V>, owner: V -> string)
    requires OwnedBy(m, owner) && ListsAll(r, s, owner)
    ensures (forall c, v :: v in ListAt(m, c) ==> v in ListAt(r, c)) <==> forall c, v :: v in ListAt(m, c) ==> v in s
  {
    hide ListAt, ListsAll;
    if forall c, v :: v in ListAt(m, c) ==> v in s {
      forall c, v | v in ListAt(m, c) ensures v in ListAt(r, c) {
        assert owner(v) == c;
        ListedIff(r, s, owner, v);
      }
    }
    if forall c, v :: v in ListAt(m, c) ==> v in ListAt(r, c) {
      forall c, v | v in ListAt(m, c) ensures v in s {
        assert owner(v) == c && v in ListAt(r, c);
        ListedIff(r, s, owner, v);
      }
    }
  }

  /** A restart loses nothing that was boarded if and only if the file has a record of it. */
  lemma RestartEnduresIff(w: World)
    requires Settled(w)
    ensures Endures(w.d, Apply(w, Restart).d) <==> Covered(w.d, w.file)
  {
    hide Sound, Restored, IsSnapshot, TaskCurrent, Keeps, ListAt, SameBoarding;
    hide KeyedBy, OwnedBy, Lists, ListsAll, CompaniesFiled;
    FileIsSound(w);
    var d, r, f := w.d, Restored(NEW_DIR, w.file), w.file;
    ListingsOf(r, f);
    KeysOfSound(d);
    KeysOfSound(r);
    FiledOfKeyed(d);
    FiledOfKeyed(r);
    CompaniesCoveredIff(d, r, f);
    PeopleCoveredIff(d, r, f);
    RecordsCoveredIff(d, r, f);
    ListsCoveredIff(d.addresses, r.addresses, f.addresses, AddressOwner);
    ListsCoveredIff(d.vibans, r.vibans, f.vibans, VibanOwner);
  }

  lemma FiledOfKeyed(d: Dir)
    requires Keyed(d)
    ensures CompaniesFiled(d.companies)
  {
    hide KeyedBy, OwnedBy;
  }

  lemma ListingsOf(d: Dir, s: State)
    requires IsSnapshot(d, s)
    ensures Lists(d.companies, s.companies, CompanyId) && Lists(d.people, s.people, PersonId)
    ensures Lists(d.extended, s.extended, ProfileOwner) && Lists(d.documents, s.documents, DocumentId)
    ensures ListsAll(d.addresses, s.addresses, AddressOwner) && ListsAll(d.vibans, s.vibans, VibanOwner)
  {
    hide Lists, ListsAll, Sorted;
  }

  // -------------------------------------------------------------- whole runs

  /** Every restart finds a file that covers what was boarded. */
  ghost predicate Timely(w: World, steps: seq<Step>)
    requires Legal(w, steps)
    decreases |steps|
  {
    steps == [] || ((steps[0].Restart? ==> Covered(w.d, w.file)) && Timely(Apply(w, steps[0]), steps[1..]))
  }

  /** Over any run whose restarts are timely nothing boarded is lost or re-owned; RestartEnduresIff shows that an
      untimely one does lose something. */
  lemma {:induction false} AlwaysEndures(w: World, steps: seq<Step>)
    requires Settled(w) && Legal(w, steps) && Timely(w, steps)
    ensures Endures(w.d, Run(w, steps).d)
    decreases |steps|
  {
    hide Settled, Apply, Covered, Endures;
    if steps == [] {
      EnduresItself(w.d);
    } else {
      StepSettled(w, steps[0]);
      if steps[0].Restart? {
        RestartEnduresIff(w);
      } else {
        StepEndures(w, steps[0]);
      }
      AlwaysEndures(Apply(w, steps[0]), steps[1..]);
      EnduresTransitive(w.d, Apply(w, steps[0]).d, Run(w, steps).d);
    }
  }

  /** Every restart finds this profile in the file. */
  ghost predicate ProfileSaved(w: World, steps: seq<Step>, p: Profile)
    requires Legal(w, steps)
    decreases |steps|
  {
    steps == [] || ((steps[0].Restart? ==> p in w.file.extended) && ProfileSaved(Apply(w, steps[0]), steps[1..], p))
  }

  /** A company's profile survives a restart if and only if it is in the file, and then it is the same one. */
  lemma ProfileSurvivesIff(w: World, cid: string)
    requires Settled(w) && FilesBehind(w) && cid in w.d.extended
    ensures var r := Apply(w, Restart).d;
      && (cid in r.extended <==> w.d.extended[cid] in w.file.extended)
      && (cid in r.extended ==> r.extended[cid] == w.d.extended[cid])
  {
    hide Sound, Restored, IsSnapshot, TaskCurrent, Keeps, ListAt, KeyedBy, Lists;
    FileIsSound(w);
    var r, f := Restored(NEW_DIR, w.file), w.file;
    ListingsOf(r, f);
    KeysOfSound(r);
    KeysOfSound(w.d);
    ListsMember(r.extended, f.extended, ProfileOwner);
    ProfileKeys(w.d, cid);
  }

  lemma ProfileKeys(d: Dir, cid: string)
    requires Keyed(d) && cid in d.extended
    ensures d.extended[cid].companyId == cid && ProfileOwner(d.extended[cid]) == cid
  {
    hide OwnedBy;
    assert ProfileOwner(d.extended[cid]) == cid;
  }

  /** The profile race: once one create has won, every other one loses, at any later time, for as long as each restart
      finds the profile in the file. */
  lemma {:induction false} OneProfileEver(w: World, steps: seq<Step>, t: Task, id: string, ts: string)
    requires Settled(w) && FilesBehind(w) && Legal(w, steps) && t.ProfileTask? && t.cid in w.d.extended
    requires ProfileSaved(w, steps, w.d.extended[t.cid])
    ensures var d := Run(w, steps).d;
      ProfileAdded(d, t, id, ts).Err? && t.cid in d.extended && d.extended[t.cid] == w.d.extended[t.cid]
    decreases |steps|
  {
    hide Settled, FilesBehind, ValidateProfile, Apply;
    if steps != [] {
      StepSettled(w, steps[0]);
      StepBehind(w, steps[0]);
      if steps[0].Restart? {
        ProfileSurvivesIff(w, t.cid);
      } else {
        StepEndures(w, steps[0]);
      }
      OneProfileEver(Apply(w, steps[0]), steps[1..], t, id, ts);
    }
  }

  /** The company of the file that x finds after a restart: by its id, or by its reference when no company of the
      file has x for its id. */
  predicate FileFinds(f: State, x: string, c: Company) {
    && c in f.companies
    && (x == c.id || (x == c.externalRef != "" && forall i :: 0 <= i < |f.companies| ==> f.companies[i].id != x))
  }

  predicate NoProfileOf(f: State, cid: string) {
    forall i :: 0 <= i < |f.extended| ==> f.extended[i].companyId != cid
  }

  predicate HasDocument(f: State, k: string) {
    exists j :: 0 <= j < |f.documents| && f.documents[j].id == k
  }

  predicate HasDocuments(f: State, refs: seq<string>) {
    forall i :: 0 <= i < |refs| ==> HasDocument(f, refs[i])
  }

  /** A profile of company c can be filed, going by the file. */
  predicate FileAllows(f: State, c: Company, p: ProfileParams) {
    && NoProfileOf(f, c.id) && HasDocuments(f, p.documents)
    && ValidateProfile(p, c.companyDocumentsWaived).None?
  }

  lemma FoundAfterRestart(r: Dir, f: State, x: string, cid: string)
    requires Sound(r) && IsSnapshot(r, f)
    ensures Resolve(r, x) == Some(cid) <==> exists c :: FileFinds(f, x, c) && c.id == cid
    ensures forall c :: c in f.companies ==> c.id in r.companies && r.companies[c.id] == c
  {
    hide Sound, IsSnapshot, KeyedBy, OwnedBy, Lists, ListsAll, Resolve;
    ListingsOf(r, f);
    KeysOfSound(r);
    ListsMember(r.companies, f.companies, CompanyId);
    ResolveMeaning(r, x);
    forall c | c in f.companies ensures c.id in r.companies && r.companies[c.id] == c {
      assert CompanyId(c) == c.id;
    }
    CompaniesInFile(r, f);
    ResolvedInFile(r, x);
    if Resolve(r, x) == Some(cid) {
      assert FileFinds(f, x, r.companies[cid]) && r.companies[cid].id == cid;
    }
  }

  lemma CompaniesInFile(r: Dir, f: State)
    requires KeyedBy(r.companies, CompanyId) && Lists(r.companies, f.companies, CompanyId)
    ensures forall c :: c in r.companies ==> r.companies[c].id == c && r.companies[c] in f.companies
  {
    hide Lists;
    ListsMember(r.companies, f.companies, CompanyId);
    forall c | c in r.companies ensures r.companies[c].id == c && r.companies[c] in f.companies {
      assert CompanyId(r.companies[c]) == c;
    }
  }

  /** What Resolve finds has x for its id or its reference. */
  lemma ResolvedInFile(d: Dir, x: string)
    requires Sound(d)
    ensures var r := Resolve(d, x);
      r.Some? ==> && r.value in d.companies
                  && (x == r.value || (x !in d.companies && d.companies[r.value].externalRef == x != ""))
  {
    hide PeopleListed, PeopleComplete, ProfilesSound, VibansSound, AddressesSound;
  }

  lemma DocumentsAfterRestart(r: Dir, f: State, refs: seq<string>)
    requires Sound(r) && IsSnapshot(r, f)
    ensures Unknown(r, refs) == [] <==> HasDocuments(f, refs)
  {
    hide Sound, IsSnapshot, OwnedBy, Lists, ListsAll, Unknown;
    ListingsOf(r, f);
    KeysOfSound(r);
    NothingUnknown(r, refs);
    ListsMember(r.documents, f.documents, DocumentId);
    forall k ensures k in r.documents <==> HasDocument(f, k) {
      if k in r.documents {
        assert DocumentId(r.documents[k]) == k && r.documents[k] in f.documents;
      }
      if j :| 0 <= j < |f.documents| && f.documents[j].id == k {
        assert f.documents[j] in f.documents && DocumentId(f.documents[j]) == k;
      }
    }
  }

  lemma ProfilesAfterRestart(r: Dir, f: State, cid: string)
    requires Sound(r) && IsSnapshot(r, f)
    ensures cid !in r.extended <==> NoProfileOf(f, cid)
  {
    hide Sound, IsSnapshot, OwnedBy, Lists, ListsAll;
    ListingsOf(r, f);
    KeysOfSound(r);
    ListsMember(r.extended, f.extended, ProfileOwner);
    if cid in r.extended {
      assert ProfileOwner(r.extended[cid]) == cid && r.extended[cid] in f.extended;
    }
    forall i | 0 <= i < |f.extended| && f.extended[i].companyId == cid ensures cid in r.extended {
      assert f.extended[i] in f.extended && ProfileOwner(f.extended[i]) == cid;
    }
  }

  /** CreateExtended from its first section to its last, undisturbed. */
  function WholeCreate(x: string, p: ProfileParams, id: string, ts: string): seq<Step> {
    [LookForExtended(x, p), Finish(0, id, ts)]
  }

  /** The calls are all possible and file a profile of cid that was not there. */
  ghost predicate FilesProfile(w: World, steps: seq<Step>, cid: string) {
    cid !in w.d.extended && Legal(w, steps) && cid in Run(w, steps).d.extended
  }

  lemma LegalTwo(w: World, x: Step, y: Step)
    ensures Legal(w, [x, y]) <==> Enabled(w, x) && Enabled(Apply(w, x), y)
    ensures Legal(w, [x, y]) ==> Run(w, [x, y]) == Apply(Apply(w, x), y)
  {
    hide Apply, IsSnapshot;
    assert [x, y][1..] == [y] && [y][1..] == [];
    if Enabled(w, x) {
      var v := Apply(w, x);
      if Enabled(v, y) {
        assert Legal(Apply(v, y), []);
        assert Run(v, [y]) == Run(Apply(v, y), []);
      }
      assert Legal(v, [y]) <==> Enabled(v, y);
    }
  }

  /** When a whole CreateExtended files a profile of cid, in any settled world with no call in progress. */
  lemma LookedIff(d: Dir, x: string, p: ProfileParams)
    requires RefsAgree(d.companies, d.companiesByRef)
    ensures var r := ProfileLooked(d, x, p);
      && (r.Ok? <==> Resolve(d, x).Some? && Resolve(d, x).value !in d.extended)
      && (r.Ok? ==>
            && Resolve(d, x).value in d.companies
            && r.value == ProfileTask(Resolve(d, x).value, d.companies[Resolve(d, x).value].companyDocumentsWaived,
                                      Unknown(d, p.documents), p))
  {
    hide Unknown, Resolve, RefsAgree;
    if Resolve(d, x).Some? {
      ResolvedIsCompany(d, x);
    }
  }

  lemma FinishedIff(d: Dir, t: Task, id: string, ts: string)
    requires t.ProfileTask? && t.cid !in d.extended
    ensures var e := Finished(d, t, id, ts).extended;
      if ValidateProfile(t.profile, t.waived).None? && t.unknown == []
      then e == d.extended[t.cid := NewProfile(t, id, ts)]
      else e == d.extended
  {
    hide ValidateProfile;
  }

  lemma WholeCreateIff(w: World, x: string, p: ProfileParams, id: string, ts: string, cid: string)
    requires RefsAgree(w.d.companies, w.d.companiesByRef) && w.tasks == []
    ensures FilesProfile(w, WholeCreate(x, p, id, ts), cid)
      <==> && Resolve(w.d, x) == Some(cid) && cid in w.d.companies && cid !in w.d.extended
           && Unknown(w.d, p.documents) == []
           && ValidateProfile(p, w.d.companies[cid].companyDocumentsWaived).None?
    ensures FilesProfile(w, WholeCreate(x, p, id, ts), cid) ==>
      Run(w, WholeCreate(x, p, id, ts)).d.extended
        == w.d.extended[cid := Profile(id, cid, p.registeredCompanyNo, p.documents, ts)]
  {
    hide ValidateProfile, Unknown, Resolve, RefsAgree, Legal, Run, Finished, ProfileLooked;
    var look, finish := LookForExtended(x, p), Finish(0, id, ts);
    LegalTwo(w, look, finish);
    LookedIff(w.d, x, p);
    var looked := ProfileLooked(w.d, x, p);
    if looked.Ok? {
      var v := Apply(w, look);
      assert v.tasks == [looked.value] && v.d == w.d;
      assert Enabled(v, finish) && Apply(v, finish).d == Finished(w.d, looked.value, id, ts);
      FinishedIff(w.d, looked.value, id, ts);
    } else {
      assert Apply(w, look) == w && !Enabled(w, finish);
    }
  }

  /**
   * After a restart, a whole CreateExtended under the spelling x files a profile of company cid if and only if the file
   * has the company and x finds it there, has no profile of it, has every document named, and the request is valid
   * under the waiver the file gives the company. With a profile that the directory held and the file has lost, that
   * profile is a second one.
   */
  lemma SecondProfileIff(w: World, x: string, p: ProfileParams, id: string, ts: string, cid: string)
    requires Settled(w)
    ensures FilesProfile(Apply(w, Restart), WholeCreate(x, p, id, ts), cid)
      <==> exists c :: FileFinds(w.file, x, c) && c.id == cid && FileAllows(w.file, c, p)
    ensures Legal(w, [Restart] + WholeCreate(x, p, id, ts))
      <==> Legal(Apply(w, Restart), WholeCreate(x, p, id, ts))
    ensures FilesProfile(Apply(w, Restart), WholeCreate(x, p, id, ts), cid) ==>
      && cid in Run(w, [Restart] + WholeCreate(x, p, id, ts)).d.extended
      && Run(w, [Restart] + WholeCreate(x, p, id, ts)).d.extended[cid]
           == Profile(id, cid, p.registeredCompanyNo, p.documents, ts)
  {
    hide Sound, Restored, IsSnapshot, TaskCurrent, ValidateProfile, Unknown, Resolve, FileFinds, WholeCreate;
    hide NoProfileOf, HasDocuments, FilesProfile;
    var r, f := Apply(w, Restart), w.file;
    var steps := WholeCreate(x, p, id, ts);
    FileIsSound(w);
    assert ([Restart] + steps)[1..] == steps;
    SoundRefs(r.d);
    WholeCreateIff(r, x, p, id, ts, cid);
    FoundAfterRestart(r.d, f, x, cid);
    DocumentsAfterRestart(r.d, f, p.documents);
    ProfilesAfterRestart(r.d, f, cid);
    forall c | FileFinds(f, x, c) && c.id == cid
      ensures cid in r.d.companies && r.d.companies[cid] == c
    {
      FoundIsFiled(f, x, c);
    }
    if FilesProfile(r, steps, cid) {
      var c :| FileFinds(f, x, c) && c.id == cid;
      assert FileAllows(f, c, p);
    }
    if c :| FileFinds(f, x, c) && c.id == cid && FileAllows(f, c, p) {
      assert r.d.companies[cid] == c;
    }
    if FilesProfile(r, steps, cid) {
      FilesWhat(r, steps, cid);
    }
  }

  lemma FilesWhat(w: World, steps: seq<Step>, cid: string)
    requires FilesProfile(w, steps, cid)
    ensures Legal(w, steps) && cid in Run(w, steps).d.extended
  {
  }

  lemma FoundIsFiled(f: State, x: string, c: Company)
    requires FileFinds(f, x, c)
    ensures c in f.companies
  {
  }

  lemma SoundRefs(d: Dir)
    requires Sound(d)
    ensures RefsAgree(d.companies, d.companiesByRef)
  {
    hide RefsAgree, PeopleListed, PeopleComplete, ProfilesSound, VibansSound, AddressesSound, KeyedBy;
  }

  /** A file that has lost the company too: its profile is gone, and no second one can be filed either. */
  lemma LostCompanyRefused(p: ProfileParams, ts: string)
    requires ValidateProfile(p, true).None? && p.documents == []
    ensures var steps := [CreateCompany(ACME, "cmp_1", "adr_1", ts)] + WholeCreate("cmp_1", p, "ext_1", ts);
      && Legal(NEW_WORLD, steps)
      && "cmp_1" in Run(NEW_WORLD, steps).d.extended
      && !Legal(Apply(Run(NEW_WORLD, steps), Restart), WholeCreate("cmp_1", p, "ext_2", ts))
  {
    hide CompanyAccepted, CompanyCreated, ValidateProfile;
    AcmeIsSaved(ts);
    var create := CreateCompany(ACME, "cmp_1", "adr_1", ts);
    var steps := [create] + WholeCreate("cmp_1", p, "ext_1", ts);
    var w := Apply(NEW_WORLD, create);
    assert steps[1..] == WholeCreate("cmp_1", p, "ext_1", ts);
    CreateProfile(w, "cmp_1", p, "ext_1", ts);
    var e := Run(w, steps[1..]);
    assert e.file == NO_STATE;
    assert Restored(NEW_DIR, NO_STATE) == NEW_DIR;
    LegalTwo(Apply(e, Restart), LookForExtended("cmp_1", p), Finish(0, "ext_2", ts));
  }

  /** A persist that is too late: the company is saved, its profile is filed and answered, the process dies before the
      next file is written, and the same call files a second profile. From any directory, for any company without
      one. */
  lemma ProfileCreatedTwice(w: World, cid: string, p: ProfileParams, s: State, ts: string)
    requires Settled(w) && w.tasks == [] && w.taken == [] && IsSnapshot(w.d, s)
    requires cid in w.d.companies && cid !in w.d.extended
    requires ValidateProfile(p, w.d.companies[cid].companyDocumentsWaived).None? && Unknown(w.d, p.documents) == []
    ensures var steps := [Take(s), Save(0), LookForExtended(cid, p), Finish(0, "ext_1", ts)];
      var again := [Restart, LookForExtended(cid, p), Finish(0, "ext_2", ts)];
      && Legal(w, steps) && Legal(Run(w, steps), again)
      && cid in Run(w, steps).d.extended && Run(w, steps).d.extended[cid].id == "ext_1"
      && cid in Run(Run(w, steps), again).d.extended && Run(Run(w, steps), again).d.extended[cid].id == "ext_2"
  {
    hide Sound, Restored, IsSnapshot, TaskCurrent, SameBook, ValidateProfile, Unknown;
    var w2 := w.(file := s);
    var t := ProfileTask(cid, w.d.companies[cid].companyDocumentsWaived, [], p);
    TakeAndSave(w, s);
    CreateProfile(w2, cid, p, "ext_1", ts);
    var steps := [Take(s), Save(0), LookForExtended(cid, p), Finish(0, "ext_1", ts)];
    assert steps == [Take(s), Save(0)] + [LookForExtended(cid, p), Finish(0, "ext_1", ts)];
    RunConcat(w, [Take(s), Save(0)], [LookForExtended(cid, p), Finish(0, "ext_1", ts)]);
    var v := Run(w, steps);
    var r := Apply(v, Restart);
    RestoreRebuilds(w.d, s);
    SameBookFacts(w.d, r.d, p.documents);
    CreateProfile(r, cid, p, "ext_2", ts);
    var again := [Restart, LookForExtended(cid, p), Finish(0, "ext_2", ts)];
    assert again[1..] == [LookForExtended(cid, p), Finish(0, "ext_2", ts)];
    assert Legal(v, again) && Run(v, again) == Run(r, again[1..]);
  }

  lemma TakeAndSave(w: World, s: State)
    requires w.taken == [] && IsSnapshot(w.d, s)
    ensures Legal(w, [Take(s), Save(0)]) && Run(w, [Take(s), Save(0)]) == w.(file := s)
  {
    hide IsSnapshot;
    var v := Apply(w, Take(s));
    assert [Take(s), Save(0)][1..] == [Save(0)] && [Save(0)][1..] == [];
    var u := Apply(v, Save(0));
    assert u == w.(file := s);
    assert Legal(u, []) && Legal(v, [Save(0)]) && Run(v, [Save(0)]) == Run(u, []);
  }

  lemma CreateProfile(w: World, cid: string, p: ProfileParams, id: string, ts: string)
    requires w.tasks == [] && cid in w.d.companies && cid !in w.d.extended
    requires ValidateProfile(p, w.d.companies[cid].companyDocumentsWaived).None? && Unknown(w.d, p.documents) == []
    ensures var steps := [LookForExtended(cid, p), Finish(0, id, ts)];
      && Legal(w, steps)
      && var filed := Profile(id, cid, p.registeredCompanyNo, p.documents, ts);
         Run(w, steps) == w.(d := w.d.(extended := w.d.extended[cid := filed]))
  {
    hide ValidateProfile, Unknown;
    var x, y := LookForExtended(cid, p), Finish(0, id, ts);
    assert [x, y][1..] == [y] && [y][1..] == [];
    var v := Apply(w, x);
    assert v.tasks == [ProfileTask(cid, w.d.companies[cid].companyDocumentsWaived, [], p)];
    assert v.tasks[..0] + v.tasks[1..] == [];
    var u := Apply(v, y);
    assert Legal(u, []) && Legal(v, [y]) && Run(v, [y]) == Run(u, []);
  }

  lemma SameBookFacts(d: Dir, r: Dir, refs: seq<string>)
    requires SameBook(d, r)
    ensures r.companies == d.companies && r.extended == d.extended && Unknown(r, refs) == Unknown(d, refs)
  {
    hide SameLists;
    NothingKnownButDocuments(d, r, refs);
  }

  lemma {:induction false} NothingKnownButDocuments(d: Dir, r: Dir, refs: seq<string>)
    requires d.documents == r.documents
    ensures Unknown(r, refs) == Unknown(d, refs)
  {
    if refs != [] {
      NothingKnownButDocuments(d, r, refs[..|refs| - 1]);
    }
  }

  lemma {:induction false} RunConcat(w: World, a: seq<Step>, b: seq<Step>)
    requires Legal(w, a) && Legal(Run(w, a), b)
    ensures Legal(w, a + b) && Run(w, a + b) == Run(Run(w, a), b)
    decreases |a|
  {
    hide Apply;
    if a == [] {
      assert a + b == b;
    } else {
      assert (a + b)[1..] == a[1..] + b;
      RunConcat(Apply(w, a[0]), a[1..], b);
    }
  }

  /** A company's currency is still registered after a restart if and only if the file has a vIBAN of it. */
  lemma VibanSurvivesIff(w: World, cid: string, ccy: string)
    requires Settled(w)
    ensures HasCurrency(ListAt(Apply(w, Restart).d.vibans, cid), ccy)
      <==> exists v :: v in w.file.vibans && v.companyId == cid && v.currency == ccy
  {
    hide Sound, Restored, IsSnapshot, TaskCurrent, ListAt, Lists, ListsAll, KeyedBy;
    FileIsSound(w);
    var r, f := Restored(NEW_DIR, w.file), w.file;
    ListingsOf(r, f);
    KeysOfSound(r);
    var list := ListAt(r.vibans, cid);
    ListedVibans(r.vibans, f.vibans, cid);
    if i :| 0 <= i < |list| && list[i].currency == ccy {
      assert list[i] in f.vibans && list[i].companyId == cid;
    }
    if v :| v in f.vibans && v.companyId == cid && v.currency == ccy {
      var i :| 0 <= i < |list| && list[i] == v;
    }
  }

  lemma ListedVibans(m: map<string, seq<Viban>>, s: seq<Viban>, cid: string)
    requires OwnedBy(m, VibanOwner) && ListsAll(m, s, VibanOwner)
    ensures forall v :: v in ListAt(m, cid) <==> v in s && v.companyId == cid
  {
    hide ListAt;
    forall v ensures v in ListAt(m, cid) <==> v in s && v.companyId == cid {
      assert VibanOwner(v) == v.companyId;
      InMultiset(s, v);
      InMultiset(ListAt(m, v.companyId), v);
    }
  }

  /** Every restart finds a vIBAN of this company and currency in the file. */
  ghost predicate VibanSaved(w: World, steps: seq<Step>, cid: string, ccy: string)
    requires Legal(w, steps)
    decreases |steps|
  {
    steps == [] ||
    ((steps[0].Restart? ==> exists v :: v in w.file.vibans && v.companyId == cid && v.currency == ccy)
     && VibanSaved(Apply(w, steps[0]), steps[1..], cid, ccy))
  }

  lemma {:induction false} CurrencyStays(w: World, steps: seq<Step>, cid: string, ccy: string)
    requires Settled(w) && Legal(w, steps) && VibanSaved(w, steps, cid, ccy)
      && HasCurrency(ListAt(w.d.vibans, cid), ccy)
    ensures HasCurrency(ListAt(Run(w, steps).d.vibans, cid), ccy)
    decreases |steps|
  {
    hide Settled, Apply, ListAt;
    if steps != [] {
      StepSettled(w, steps[0]);
      if steps[0].Restart? {
        VibanSurvivesIff(w, cid, ccy);
      } else {
        StepEndures(w, steps[0]);
        CurrencyKept(w.d, Apply(w, steps[0]).d, cid, ccy);
      }
      CurrencyStays(Apply(w, steps[0]), steps[1..], cid, ccy);
    }
  }

  lemma CurrencyKept(d: Dir, e: Dir, cid: string, ccy: string)
    requires Endures(d, e) && HasCurrency(ListAt(d.vibans, cid), ccy)
    ensures HasCurrency(ListAt(e.vibans, cid), ccy)
  {
    hide ListAt;
    var list := ListAt(d.vibans, cid);
    var i :| 0 <= i < |list| && list[i].currency == ccy;
    assert list[i] in ListAt(e.vibans, cid);
    var j :| 0 <= j < |ListAt(e.vibans, cid)| && ListAt(e.vibans, cid)[j] == list[i];
  }

  lemma RegisteredIsBoarded(d: Dir, cid: string, ccy: string)
    requires VibansSound(d.companies, d.vibans) && HasCurrency(ListAt(d.vibans, cid), ccy)
    ensures cid in d.companies
  {
  }

  lemma SettledVibans(w: World)
    requires Settled(w)
    ensures VibansSound(w.d.companies, w.d.vibans)
  {
    hide RefsAgree, PeopleListed, PeopleComplete, ProfilesSound, AddressesSound, FilesSound, TaskCurrent, VibansSound;
  }

  /** Registering again, at any later time and under any spelling, adds nothing, for as long as each restart finds the
      vIBAN in the file. */
  lemma VibanRegisteredOnce(w: World, steps: seq<Step>, companyId: string, currency: string, id: string, ts: string)
    requires Settled(w) && Legal(w, steps) && ByteLength(Upper(TrimSpace(currency))) == 3
    requires HasCurrency(ListAt(w.d.vibans, companyId), Upper(TrimSpace(currency)))
    requires VibanSaved(w, steps, companyId, Upper(TrimSpace(currency)))
    ensures VibanAdded(Run(w, steps).d, companyId, currency, id, ts) == Ok(Run(w, steps).d)
  {
    hide Settled, TrimSpace, Upper, Run, Legal, ListAt, VibanSaved, HasCurrency, VibansSound;
    CurrencyStays(w, steps, companyId, Upper(TrimSpace(currency)));
    AlwaysSettled(w, steps);
    SettledVibans(Run(w, steps));
    RegisteredIsBoarded(Run(w, steps).d, companyId, Upper(TrimSpace(currency)));
  }

  // ------------------------------------- Restore merges where it says it replaces

  /** A directory that already holds companies keeps them, and its own lists get longer. */
  lemma RestoreMerges(d: Dir, s: State)
    requires Sound(d) && IsSnapshot(d, s)
    ensures var r := Restored(d, s);
      && r.companies == d.companies
      && (forall c, a :: multiset(ListAt(r.addresses, c))[a] == 2 * multiset(ListAt(d.addresses, c))[a])
      && (forall c, v :: multiset(ListAt(r.vibans, c))[v] == 2 * multiset(ListAt(d.vibans, c))[v])
  {
    hide RefsAgree, PeopleListed, PeopleComplete, ProfilesSound, Blank, Sorted, VibansSound, AddressesSound, Lists;
    hide ListsAll, OwnedBy, KeyedBy;
    KeysOfSound(d);
    FiledTwice(d.companies, s.companies, CompanyId);
    GroupedTwice(d.addresses, s.addresses, AddressOwner);
    GroupedTwice(d.vibans, s.vibans, VibanOwner);
  }

  lemma FiledTwice<V(!new)>(m: map<string, V>, s: seq<V>, key: V -> string)
    requires KeyedBy(m, key) && Lists(m, s, key)
    ensures Filed(m, s, key) == m
  {
    var r := Filed(m, s, key);
    ListsMember(m, s, key);
    forall k ensures k in r <==> k in m
      ensures k in r ==> r[k] == m[k]
    {
      FiledMeaning(m, s, key, k);
      if i :| 0 <= i < |s| && key(s[i]) == k {
        assert s[i] in s;
      }
    }
  }

  lemma GroupedTwice<V(!new)>(m: map<string, seq<V>>, s: seq<V>, owner: V -> string)
    requires OwnedBy(m, owner) && ListsAll(m, s, owner)
    ensures forall k, v :: multiset(ListAt(Grouped(m, s, owner), k))[v] == 2 * multiset(ListAt(m, k))[v]
  {
    forall k, v ensures multiset(ListAt(Grouped(m, s, owner), k))[v] == 2 * multiset(ListAt(m, k))[v] {
      GroupedMeaning(m, s, owner, k);
      OfOwnerCounts(s, owner, k, v);
      InMultiset(ListAt(m, k), v);
    }
  }

  // When it does replace.

  lemma FiledReplacesIff<V(!new)>(m: map<string, V>, e: map<string, V>, s: seq<V>, key: V -> string)
    requires KeyedBy(e, key) && Lists(e, s, key)
    ensures Filed(m, s, key) == e <==> m.Keys <= e.Keys
  {
    var r := Filed(m, s, key);
    ListsMember(e, s, key);
    forall k ensures k in r <==> k in m || k in e
      ensures k in e ==> k in r && r[k] == e[k]
    {
      FiledMeaning(m, s, key, k);
      if k in e {
        assert key(e[k]) == k && e[k] in s;
        var i :| 0 <= i < |s| && s[i] == e[k];
      }
      if i :| 0 <= i < |s| && key(s[i]) == k {
        assert s[i] in s;
      }
    }
  }

  lemma SumIsSecondIff<V>(a: seq<V>, b: seq<V>, c: seq<V>)
    requires multiset(b) == multiset(c)
    ensures multiset(c) == multiset(a + b) <==> a == []
  {
    assert multiset(a + b) == multiset(a) + multiset(b);
    assert |multiset(a + b)| == |a| + |b| && |multiset(c)| == |multiset(b)| == |b|;
    if a == [] {
      assert a + b == b;
    }
  }

  lemma GroupedReplacesIff<V(!new)>(m: map<string, seq<V>>, e: map<string, seq<V>>, s: seq<V>, owner: V -> string)
    requires OwnedBy(e, owner) && ListsAll(e, s, owner)
    ensures SameLists(e, Grouped(m, s, owner)) <==> forall k :: ListAt(m, k) == []
  {
    hide ListAt;
    GroupedRebuilds(e, s, owner);
    forall k ensures multiset(ListAt(e, k)) == multiset(ListAt(Grouped(m, s, owner), k)) <==> ListAt(m, k) == [] {
      GroupedMeaning(m, s, owner, k);
      GroupedMeaning(map[], s, owner, k);
      NoLists<V>(k);
      assert [] + OfOwner(s, owner, k) == OfOwner(s, owner, k);
      SumIsSecondIff(ListAt(m, k), OfOwner(s, owner, k), ListAt(e, k));
    }
  }

  lemma NoLists<V>(k: string)
    ensures ListAt<V>(map[], k) == []
  {
  }

  lemma {:induction false} PeopleListsOver(m: map<string, seq<string>>, s: seq<Person>, c: string)
    ensures ListAt(PeopleLists(m, s), c) == ListAt(m, c) + ListAt(PeopleLists(map[], s), c)
  {
    if s != [] {
      PeopleListsOver(m, s[..|s| - 1], c);
    }
  }

  lemma PeopleListsReplaceIff(e: Dir, m: map<string, seq<string>>, s: seq<Person>)
    requires PeopleListed(e.companies, e.people, e.peopleByCompany) && Lists(e.people, s, PersonId)
    ensures SameLists(e.peopleByCompany, PeopleLists(m, s)) <==> forall c :: ListAt(m, c) == []
  {
    hide ListAt, PeopleListed, Lists, PeopleLists;
    PeopleListsSame(e, s);
    forall c
      ensures multiset(ListAt(e.peopleByCompany, c)) == multiset(ListAt(PeopleLists(m, s), c)) <==> ListAt(m, c) == []
    {
      PeopleListsOver(m, s, c);
      SumIsSecondIff(ListAt(m, c), ListAt(PeopleLists(map[], s), c), ListAt(e.peopleByCompany, c));
    }
  }

  lemma RefsReplaceIff(e: Dir, refs: map<string, string>, s: seq<Company>)
    requires CompaniesFiled(e.companies) && RefsAgree(e.companies, e.companiesByRef) && Lists(e.companies, s, CompanyId)
    ensures RefsOf(refs, s) == e.companiesByRef <==> refs.Keys <= e.companiesByRef.Keys
  {
    hide CompaniesFiled, RefsAgree, Lists, RefsOf;
    forall ref ensures ref in RefsOf(refs, s) <==> ref in refs || ref in e.companiesByRef
      ensures ref in e.companiesByRef ==> RefsOf(refs, s)[ref] == e.companiesByRef[ref]
    {
      RefsOver(e, refs, s, ref);
    }
  }

  /** d holds no key that e lacks, and no per-company list at all. */
  ghost predicate Replaceable(d: Dir, e: Dir) {
    && d.companies.Keys <= e.companies.Keys && d.companiesByRef.Keys <= e.companiesByRef.Keys
    && d.people.Keys <= e.people.Keys && d.extended.Keys <= e.extended.Keys && d.documents.Keys <= e.documents.Keys
    && (forall c :: ListAt(d.addresses, c) == []) && (forall c :: ListAt(d.peopleByCompany, c) == [])
    && (forall c :: ListAt(d.vibans, c) == [])
  }

  /** Restoring e's snapshot over d leaves e's book, as the comment promises, if and only if d had nothing of
      its own. */
  lemma RestoreReplacesIff(d: Dir, e: Dir, s: State)
    requires Sound(e) && IsSnapshot(e, s)
    ensures SameBook(e, Restored(d, s)) <==> Replaceable(d, e)
  {
    hide RefsAgree, PeopleListed, PeopleComplete, ProfilesSound, VibansSound, AddressesSound, Blank;
    hide Lists, ListsAll, KeyedBy, OwnedBy, Sorted, SameLists, ListAt, CompaniesFiled;
    KeysOfSound(e);
    FiledReplacesIff(d.companies, e.companies, s.companies, CompanyId);
    RefsReplaceIff(e, d.companiesByRef, s.companies);
    GroupedReplacesIff(d.addresses, e.addresses, s.addresses, AddressOwner);
    FiledReplacesIff(d.people, e.people, s.people, PersonId);
    PeopleListsReplaceIff(e, d.peopleByCompany, s.people);
    FiledReplacesIff(d.extended, e.extended, s.extended, ProfileOwner);
    FiledReplacesIff(d.documents, e.documents, s.documents, DocumentId);
    GroupedReplacesIff(d.vibans, e.vibans, s.vibans, VibanOwner);
  }

  const ACME: CompanyParams :=
    CompanyParams("", "Acme", "", true, true, Some(Address("1 Road", "", "Town", "", "", "GB")))

  lemma AcmeIsAccepted()
    ensures CompanyAccepted(ACME)
  {
    hide TrimSpace;
    assert TrimSpace("Acme") == "Acme" && TrimSpace("1 Road") == "1 Road";
    assert TrimSpace("Town") == "Town" && TrimSpace("GB") == "GB";
    assert ByteLength("GB") == 2 by {
      assert "GB"[..1] == "G" && "G"[..0] == "";
      assert ByteLength("G") == 1;
    }
  }

  /** One company boarded, and the state of an empty directory restored over it: the company is still there. */
  lemma RestoreKeepsStranger()
    ensures var d := Done(NEW_DIR, CompanyCreated(NEW_DIR, ACME, "cmp_1", "adr_1", "2024-01-02"));
      && IsSnapshot(NEW_DIR, NO_STATE)
      && "cmp_1" in d.companies && Restored(d, NO_STATE) == d && !SameBook(NEW_DIR, Restored(d, NO_STATE))
  {
    hide CompanyAccepted;
    AcmeIsAccepted();
  }

  /** The directory with that one company, and its state file. */
  lemma AcmeIsSaved(ts: string)
    ensures var d := Done(NEW_DIR, CompanyCreated(NEW_DIR, ACME, "cmp_1", "adr_1", ts));
      var office := CompanyAddress("adr_1", "cmp_1", "registered", ACME.address.value, ts);
      && d == NEW_DIR.(companies := map["cmp_1" := NewCompany(ACME, "cmp_1", ts)],
                       addresses := map["cmp_1" := [office]])
      && IsSnapshot(d, State([NewCompany(ACME, "cmp_1", ts)], [office], [], [], [], []))
  {
    hide CompanyAccepted;
    AcmeIsAccepted();
    var d := Done(NEW_DIR, CompanyCreated(NEW_DIR, ACME, "cmp_1", "adr_1", ts));
    var c := NewCompany(ACME, "cmp_1", ts);
    var office := CompanyAddress("adr_1", "cmp_1", "registered", ACME.address.value, ts);
    assert ListAt(NEW_DIR.addresses, "cmp_1") + [office] == [office];
    assert Lists(d.companies, [c], CompanyId);
    forall v ensures multiset([office])[v] == multiset(ListAt(d.addresses, AddressOwner(v)))[v] {
      assert AddressOwner(office) == "cmp_1";
    }
  }

  /** In particular from the start: one company, its file, and the profile it gets twice. */
  lemma AcmeProfileTwice(ts: string)
    ensures var w := Apply(NEW_WORLD, CreateCompany(ACME, "cmp_1", "adr_1", ts));
      var office := CompanyAddress("adr_1", "cmp_1", "registered", ACME.address.value, ts);
      var s := State([NewCompany(ACME, "cmp_1", ts)], [office], [], [], [], []);
      var p := ProfileParams("123", []);
      var steps := [Take(s), Save(0), LookForExtended("cmp_1", p), Finish(0, "ext_1", ts)];
      var again := [Restart, LookForExtended("cmp_1", p), Finish(0, "ext_2", ts)];
      && Legal(w, steps) && Legal(Run(w, steps), again)
      && "cmp_1" in Run(w, steps).d.extended && Run(w, steps).d.extended["cmp_1"].id == "ext_1"
      && "cmp_1" in Run(Run(w, steps), again).d.extended
      && Run(Run(w, steps), again).d.extended["cmp_1"].id == "ext_2"
  {
    hide CompanyAccepted, CompanyCreated, IsSnapshot, Sound, FilesSound, TaskCurrent, TrimSpace;
    AcmeIsSaved(ts);
    NewWorldSettled();
    var w := Apply(NEW_WORLD, CreateCompany(ACME, "cmp_1", "adr_1", ts));
    StepSettled(NEW_WORLD, CreateCompany(ACME, "cmp_1", "adr_1", ts));
    var office := CompanyAddress("adr_1", "cmp_1", "registered", ACME.address.value, ts);
    assert TrimSpace("123") == "123";
    ProfileCreatedTwice(w, "cmp_1", ProfileParams("123", []),
                        State([NewCompany(ACME, "cmp_1", ts)], [office], [], [], [], []), ts);
  }
}
