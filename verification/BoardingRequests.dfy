/** What the boarding store keeps of the requests it was sent: over whole runs for companies, else call by call. */
module BoardingRequests {
  import opened Text
  import opened Sorting
  import opened Snapshots
  import opened Boarding
  import opened BoardingLaws

  // ---------------------------------------- companies carry their requests

  /** What the request of a CreateCompany step says is on the record, under the id given to it. */
  predicate Carries(c: Company, s: Step) {
    && s.CreateCompany?
    && c.id == s.id && c.externalRef == s.p.externalRef && c.legalName == s.p.legalName
    && c.merchantCategoryCode == s.p.merchantCategoryCode && c.address == s.p.address
    && c.companyDocumentsWaived == s.p.companyDocumentsWaived
    && c.personDocumentsWaived == s.p.personDocumentsWaived
    && c.createdAt == s.ts
  }

  /** Some step of the run asked for c as it is. */
  ghost predicate Asked(c: Company, steps: seq<Step>) {
    exists s :: s in steps && Carries(c, s)
  }

  ghost predicate AllAsked(cs: seq<Company>, steps: seq<Step>) {
    forall c :: c in cs ==> Asked(c, steps)
  }

  /** Wherever a company is kept: in the directory, in the file, in a snapshot not yet written. */
  ghost predicate EverywhereAsked(w: World, steps: seq<Step>) {
    && (forall k :: k in w.d.companies ==> Asked(w.d.companies[k], steps))
    && AllAsked(w.file.companies, steps)
    && forall i :: 0 <= i < |w.taken| ==> AllAsked(w.taken[i].companies, steps)
  }

  lemma AskedStays(c: Company, steps: seq<Step>, s: Step)
    requires Asked(c, steps)
    ensures Asked(c, steps + [s])
  {
    var t :| t in steps && Carries(c, t);
    assert t in steps + [s];
  }

  lemma EverywhereStays(w: World, steps: seq<Step>, s: Step)
    requires EverywhereAsked(w, steps)
    ensures EverywhereAsked(w, steps + [s])
  {
    hide Asked;
    forall c | Asked(c, steps) ensures Asked(c, steps + [s]) {
      AskedStays(c, steps, s);
    }
  }

  /** c afterwards is what it was but for its screening. */
  predicate OnlyScreened(before: Company, c: Company) {
    && c.id == before.id && c.externalRef == before.externalRef && c.legalName == before.legalName
    && c.merchantCategoryCode == before.merchantCategoryCode && c.address == before.address
    && c.companyDocumentsWaived == before.companyDocumentsWaived
    && c.personDocumentsWaived == before.personDocumentsWaived && c.createdAt == before.createdAt
  }

  lemma CreateAfter(d: Dir, p: CompanyParams, id: string, addressId: string, ts: string)
    ensures var cs := Done(d, CompanyCreated(d, p, id, addressId, ts)).companies;
      forall k :: k in cs ==>
        (k in d.companies && cs[k] == d.companies[k]) || Carries(cs[k], CreateCompany(p, id, addressId, ts))
  {
    hide CompanyAccepted;
  }

  lemma ScreenAfter(d: Dir, companyId: string, status: string, ts: string)
    ensures var cs := Done(d, CompanyScreened(d, companyId, status, ts)).companies;
      forall k :: k in cs ==> k in d.companies && OnlyScreened(d.companies[k], cs[k])
  {
    hide Resolve, SanctionsAllowed, OnlyScreened;
    forall c: Company ensures OnlyScreened(c, c) {
      SameButScreening(c, status, ts);
    }
    var r := CompanyScreened(d, companyId, status, ts);
    if r.Ok? {
      var cid := Resolve(d, companyId).value;
      SameButScreening(d.companies[cid], status, ts);
      assert r.value.companies == d.companies[cid := d.companies[cid].(sanctionsStatus := status, updatedAt := ts)];
    }
  }

  lemma SameButScreening(c: Company, status: string, ts: string)
    ensures OnlyScreened(c, c.(sanctionsStatus := status, updatedAt := ts)) && OnlyScreened(c, c)
  {
  }

  lemma FinishAfter(d: Dir, t: Task, id: string, ts: string)
    ensures Finished(d, t, id, ts).companies == d.companies
  {
    hide ValidatePerson, ValidateProfile;
  }

  lemma OthersAfter(w: World, s: Step)
    requires Enabled(w, s) && !s.Restart? && !s.CreateCompany? && !s.ScreenCompany? && !s.Finish?
    ensures Apply(w, s).d.companies == w.d.companies
  {
    hide Resolve, SanctionsAllowed, HasCurrency, Upper, TrimSpace, AddressAccepted, Blank, IsSnapshot, Restored;
    hide ListAt, Unknown, ByteLength;
  }

  /** What a step does to the companies: one new one, or the screening of one. */
  lemma CompaniesAfter(w: World, s: Step)
    requires Enabled(w, s) && !s.Restart?
    ensures var cs, cs' := w.d.companies, Apply(w, s).d.companies;
      forall k :: k in cs' ==> (k in cs && OnlyScreened(cs[k], cs'[k])) || Carries(cs'[k], s)
  {
    hide CompanyCreated, CompanyScreened, Finished, AddressAdded, VibanAdded, PersonScreened, Restored, IsSnapshot;
    match s {
      case CreateCompany(p, id, addressId, ts) => CreateAfter(w.d, p, id, addressId, ts);
      case ScreenCompany(companyId, status, ts) => ScreenAfter(w.d, companyId, status, ts);
      case Finish(i, id, ts) => FinishAfter(w.d, w.tasks[i], id, ts);
      case _ => OthersAfter(w, s);
    }
  }

  lemma StepAsked(w: World, steps: seq<Step>, s: Step)
    requires Settled(w) && Enabled(w, s) && EverywhereAsked(w, steps)
    ensures EverywhereAsked(Apply(w, s), steps + [s])
  {
    hide Asked, Settled, IsSnapshot, Restored;
    EverywhereStays(w, steps, s);
    var w', now := Apply(w, s), steps + [s];
    if s.Restart? {
      RestartAsked(w.file, now);
    } else {
      CompaniesAfter(w, s);
      forall k | k in w'.d.companies ensures Asked(w'.d.companies[k], now) {
        if Carries(w'.d.companies[k], s) {
          assert s in now;
          AskedBy(w'.d.companies[k], now, s);
        } else {
          AskedScreened(w.d.companies[k], w'.d.companies[k], now);
        }
      }
    }
    if s.Take? {
      TakenAsked(w, s.state, now);
    }
  }

  lemma AskedBy(c: Company, steps: seq<Step>, s: Step)
    requires s in steps && Carries(c, s)
    ensures Asked(c, steps)
  {
  }

  lemma AskedScreened(c: Company, after: Company, steps: seq<Step>)
    requires Asked(c, steps) && OnlyScreened(c, after)
    ensures Asked(after, steps)
  {
    var s :| s in steps && Carries(c, s);
    assert Carries(after, s);
  }

  lemma RestartAsked(f: State, steps: seq<Step>)
    requires AllAsked(f.companies, steps)
    ensures forall k :: k in Restored(NEW_DIR, f).companies ==> Asked(Restored(NEW_DIR, f).companies[k], steps)
  {
    hide Asked;
    forall k | k in Restored(NEW_DIR, f).companies ensures Asked(Restored(NEW_DIR, f).companies[k], steps) {
      FiledMeaning(map[], f.companies, CompanyId, k);
    }
  }

  lemma TakenAsked(w: World, state: State, steps: seq<Step>)
    requires Settled(w) && IsSnapshot(w.d, state)
    requires forall k :: k in w.d.companies ==> Asked(w.d.companies[k], steps)
    ensures AllAsked(state.companies, steps)
  {
    hide Asked, RefsAgree, AddressesSound, PeopleListed, PeopleComplete, ProfilesSound, VibansSound, FilesSound;
    hide Sorted, ListsAll, TaskCurrent;
    ListsMember(w.d.companies, state.companies, CompanyId);
  }

  /** Over any run, interleaved, with stale files and restarts: each company carries the reference, names, code, address
      and waivers of a request of the run to create it. */
  lemma {:induction false} CompaniesAsRequested(w: World, before: seq<Step>, steps: seq<Step>)
    requires Settled(w) && Legal(w, steps) && EverywhereAsked(w, before)
    ensures EverywhereAsked(Run(w, steps), before + steps)
    decreases |steps|
  {
    hide Settled, EverywhereAsked, Apply, IsSnapshot;
    if steps == [] {
      assert before + steps == before;
    } else {
      StepSettled(w, steps[0]);
      StepAsked(w, before, steps[0]);
      CompaniesAsRequested(Apply(w, steps[0]), before + [steps[0]], steps[1..]);
      assert before + [steps[0]] + steps[1..] == before + steps;
    }
  }

  // -------------------------------------------------- what follows from them

  lemma CompanyAsRequested(steps: seq<Step>, k: string)
    requires Legal(NEW_WORLD, steps) && k in Run(NEW_WORLD, steps).d.companies
    ensures exists s :: s in steps && Carries(Run(NEW_WORLD, steps).d.companies[k], s)
  {
    hide Settled, Apply, Enabled;
    SettledFromTheStart([]);
    assert EverywhereAsked(NEW_WORLD, []);
    CompaniesAsRequested(NEW_WORLD, [], steps);
    assert [] + steps == steps;
  }

  /** A person of a company whose request did not waive them has every document field, whoever added the person when. */
  lemma PeopleMeetRequests(steps: seq<Step>, k: string)
    requires Legal(NEW_WORLD, steps) && k in Run(NEW_WORLD, steps).d.people
    ensures var d := Run(NEW_WORLD, steps).d; var p := d.people[k];
      && p.companyId in d.companies
      && exists s :: s in steps && Carries(d.companies[p.companyId], s)
           && (p.entityType == "natural_person" ==>
                 && TrimSpace(p.firstName) != "" && TrimSpace(p.lastName) != "" && TrimSpace(p.dateOfBirth) != ""
                 && (!s.p.personDocumentsWaived ==>
                       && TrimSpace(p.documentType) != "" && TrimSpace(p.documentNumber) != ""
                       && TrimSpace(p.documentCountry) != ""))
           && (p.entityType != "natural_person" ==> p.entityType == "legal_entity" && TrimSpace(p.legalName) != "")
  {
    hide Apply, Enabled, Legal, Run, TrimSpace, Carries, FilesSound, TaskCurrent;
    SettledFromTheStart(steps);
    var d := Run(NEW_WORLD, steps).d;
    PersonIsComplete(d, k);
    CompanyAsRequested(steps, d.people[k].companyId);
    var s :| s in steps && Carries(d.companies[d.people[k].companyId], s);
    assert d.companies[d.people[k].companyId].personDocumentsWaived == s.p.personDocumentsWaived by {
      CarriesWaivers(d.companies[d.people[k].companyId], s);
    }
    CarriesWaivers(d.companies[d.people[k].companyId], s);
  }

  lemma CarriesWaivers(c: Company, s: Step)
    requires Carries(c, s)
    ensures s.CreateCompany? && c.personDocumentsWaived == s.p.personDocumentsWaived
    ensures c.companyDocumentsWaived == s.p.companyDocumentsWaived
  {
  }

  lemma PersonIsComplete(d: Dir, k: string)
    requires Sound(d) && k in d.people
    ensures d.people[k].companyId in d.companies
    ensures PersonComplete(d.people[k], d.companies[d.people[k].companyId].personDocumentsWaived)
  {
    hide PersonComplete, RefsAgree, AddressesSound, ProfilesSound, VibansSound;
  }

  /** A profile has a registry number and uploaded documents, at least one unless its company's request waived them. */
  lemma ProfilesMeetRequests(steps: seq<Step>, k: string)
    requires Legal(NEW_WORLD, steps) && k in Run(NEW_WORLD, steps).d.extended
    ensures var d := Run(NEW_WORLD, steps).d; var e := d.extended[k];
      && k in d.companies && e.companyId == k && TrimSpace(e.registeredCompanyNo) != ""
      && (forall f :: f in e.documents ==> f in d.documents)
      && exists s :: s in steps && Carries(d.companies[k], s)
           && (!s.p.companyDocumentsWaived ==> e.documents != [])
  {
    hide Apply, Enabled, Legal, Run, TrimSpace, Carries, FilesSound, TaskCurrent;
    SettledFromTheStart(steps);
    var d := Run(NEW_WORLD, steps).d;
    ProfileIsComplete(d, k);
    CompanyAsRequested(steps, k);
    var s :| s in steps && Carries(d.companies[k], s);
    CarriesWaivers(d.companies[k], s);
  }

  lemma ProfileIsComplete(d: Dir, k: string)
    requires Sound(d) && k in d.extended
    ensures var e := d.extended[k];
      && k in d.companies && e.companyId == k && !Blank(e.registeredCompanyNo)
      && (forall f :: f in e.documents ==> f in d.documents)
      && (d.companies[k].companyDocumentsWaived || e.documents != [])
  {
    hide Blank, RefsAgree, AddressesSound, PeopleListed, PeopleComplete, VibansSound;
    assert ProfileOwner(d.extended[k]) == k;
  }

  // ----------------------------------------------------------- one by one

  /** Line, city and a country code of two letters. */
  predicate Postal(a: Address) {
    TrimSpace(a.line1) != "" && TrimSpace(a.city) != "" && ByteLength(TrimSpace(a.country)) == 2
  }

  /** What a company must come with. */
  predicate Boardable(p: CompanyParams) {
    && TrimSpace(p.legalName) != "" && p.address.Some? && Postal(p.address.value)
    && (p.merchantCategoryCode == ""
        || (ByteLength(p.merchantCategoryCode) == 4 && AllDigits(p.merchantCategoryCode)))
  }

  /** Refused unless boardable, refused again for a known reference; else filed with its registered office. */
  lemma CreateMeaning(d: Dir, p: CompanyParams, id: string, addressId: string, ts: string)
    ensures var r := CompanyCreated(d, p, id, addressId, ts);
      var known := p.externalRef != "" && p.externalRef in d.companiesByRef;
      && (r == Err(Invalid) <==> !Boardable(p)) && (r == Err(Duplicate) <==> Boardable(p) && known)
      && (r.Ok? <==> Boardable(p) && !known)
      && (r.Ok? ==>
            && id in r.value.companies && r.value.companies.Keys == d.companies.Keys + {id}
            && (forall k :: k in d.companies && k != id ==> r.value.companies[k] == d.companies[k])
            && Carries(r.value.companies[id], CreateCompany(p, id, addressId, ts))
            && r.value.companies[id].sanctionsStatus == "pass" && r.value.companies[id].updatedAt == ts
            && r.value.companiesByRef ==
               (if p.externalRef == "" then d.companiesByRef else d.companiesByRef[p.externalRef := id])
            && ListAt(r.value.addresses, id) ==
               ListAt(d.addresses, id) + [CompanyAddress(addressId, id, "registered", p.address.value, ts)]
            && (forall k :: k != id ==> ListAt(r.value.addresses, k) == ListAt(d.addresses, k))
            && r.value.people == d.people && r.value.peopleByCompany == d.peopleByCompany
            && r.value.extended == d.extended && r.value.documents == d.documents && r.value.vibans == d.vibans)
  {
    hide TrimSpace, ByteLength;
  }

  lemma AddressMeaning(d: Dir, companyId: string, p: AddressParams, id: string, ts: string)
    ensures var r := AddressAdded(d, companyId, p, id, ts);
      var fit := TrimSpace(p.kind) != "" && Postal(p.address);
      && (r == Err(Invalid) <==> !fit) && (r == Err(NotFound) <==> fit && Resolve(d, companyId).None?)
      && (r.Ok? <==> fit && Resolve(d, companyId).Some?)
      && (r.Ok? ==> var cid := Resolve(d, companyId).value;
            && r.value == d.(addresses := r.value.addresses)
            && ListAt(r.value.addresses, cid) ==
               ListAt(d.addresses, cid) + [CompanyAddress(id, cid, p.kind, p.address, ts)]
            && forall k :: k != cid ==> ListAt(r.value.addresses, k) == ListAt(d.addresses, k))
  {
    hide TrimSpace, ByteLength, Resolve;
  }

  /** Which people are refused, and why; the kind defaults to a natural person. */
  lemma ValidatePersonMeaning(p: PersonParams, waived: bool)
    ensures var natural := p.entityType == "" || p.entityType == "natural_person";
      var named := TrimSpace(p.firstName) != "" && TrimSpace(p.lastName) != "" && TrimSpace(p.dateOfBirth) != "";
      var legal := p.entityType == "legal_entity" && TrimSpace(p.legalName) != "";
      var papers :=
        TrimSpace(p.documentType) != "" && TrimSpace(p.documentNumber) != "" && TrimSpace(p.documentCountry) != "";
      && (ValidatePerson(p, waived) == Some(Invalid) <==> (natural && !named) || (!natural && !legal))
      && (ValidatePerson(p, waived) == Some(RequirementUnmet) <==> natural && named && !waived && !papers)
      && (ValidatePerson(p, waived) == None <==> (natural && named && (waived || papers)) || (!natural && legal))
  {
    hide TrimSpace;
  }

  /** The person filed is the one asked for, at the end of the company's list. */
  lemma PersonMeaning(d: Dir, t: Task, id: string, ts: string)
    requires t.PersonTask?
    ensures var r, p, refused := PersonAdded(d, t, id, ts), t.person, ValidatePerson(t.person, t.waived);
      && (refused.Some? ==> r == Err(refused.value)) && (refused.None? ==> r.Ok?)
      && (r.Ok? ==>
            && r.value == d.(people := r.value.people, peopleByCompany := r.value.peopleByCompany)
            && ListAt(r.value.peopleByCompany, t.cid) == ListAt(d.peopleByCompany, t.cid) + [id]
            && (forall k :: k != t.cid ==> ListAt(r.value.peopleByCompany, k) == ListAt(d.peopleByCompany, k))
            && id in r.value.people && r.value.people.Keys == d.people.Keys + {id}
            && (forall k :: k in d.people && k != id ==> r.value.people[k] == d.people[k])
            && var q := r.value.people[id];
               && q.id == id && q.companyId == t.cid && q.externalRef == p.externalRef
               && q.entityType == (if p.entityType == "" then "natural_person" else p.entityType)
               && q.firstName == p.firstName && q.lastName == p.lastName && q.dateOfBirth == p.dateOfBirth
               && q.legalName == p.legalName && q.documentType == p.documentType
               && q.documentNumber == p.documentNumber && q.documentCountry == p.documentCountry
               && q.sanctionsStatus == "pass" && q.pepSanctionsStatus == "pass"
               && q.createdAt == ts && q.updatedAt == ts)
  {
    hide ValidatePerson;
  }

  /** Which profiles are refused, and why, in order; the profile filed is the one asked for. */
  lemma ProfileMeaning(d: Dir, t: Task, id: string, ts: string)
    requires t.ProfileTask?
    ensures var r, p := ProfileAdded(d, t, id, ts), t.profile;
      && (TrimSpace(p.registeredCompanyNo) == "" ==> r == Err(Invalid))
      && (TrimSpace(p.registeredCompanyNo) != "" ==>
            r == if !t.waived && p.documents == [] then Err(RequirementUnmet)
                 else if t.unknown != [] then Err(Invalid)
                 else if t.cid in d.extended then Err(Duplicate)
                 else
                   var filed := Profile(id, t.cid, p.registeredCompanyNo, p.documents, ts);
                   Ok(d.(extended := d.extended[t.cid := filed])))
  {
    hide TrimSpace;
  }

  /** What the first sections find out: the company, its waiver, and which documents were never uploaded. */
  lemma LookMeaning(d: Dir, companyId: string, person: PersonParams, profile: ProfileParams)
    requires RefsAgree(d.companies, d.companiesByRef)
    ensures var r := PersonLooked(d, companyId, person);
      && (r == Err(NotFound) <==> Resolve(d, companyId).None?)
      && (Resolve(d, companyId).Some? ==> var cid := Resolve(d, companyId).value;
            cid in d.companies && r == Ok(PersonTask(cid, d.companies[cid].personDocumentsWaived, person)))
    ensures var r := ProfileLooked(d, companyId, profile);
      && (r == Err(NotFound) <==> Resolve(d, companyId).None?)
      && (Resolve(d, companyId).Some? ==> var cid := Resolve(d, companyId).value;
            && (cid in d.extended ==> r == Err(Duplicate))
            && (cid !in d.extended ==>
                  && r.Ok? && r.value.ProfileTask? && r.value.cid == cid && r.value.profile == profile
                  && r.value.waived == d.companies[cid].companyDocumentsWaived
                  && (r.value.unknown == [] <==> forall f :: f in profile.documents ==> f in d.documents)))
  {
    hide Resolve, Unknown;
    NothingUnknown(d, profile.documents);
    assert forall f :: f in profile.documents ==> exists i :: 0 <= i < |profile.documents| && profile.documents[i] == f;
    if Resolve(d, companyId).Some? {
      ResolvedIsCompany(d, companyId);
    }
  }

  /** The receipt says what was uploaded. */
  lemma DocumentMeaning(d: Dir, p: DocumentParams, id: string, ts: string)
    ensures DocumentAdded(d, p, id, ts) ==
            d.(documents := d.documents[id := Document(id, p.documentType, p.fileName, p.size, ts)])
  {
  }

  /** Three letters, upper-cased and trimmed; one account per company and currency, the existing one if there is one. */
  lemma VibanMeaning(d: Dir, companyId: string, currency: string, id: string, ts: string)
    ensures var r, ccy := VibanAdded(d, companyId, currency, id, ts), Upper(TrimSpace(currency));
      var fit, found := ByteLength(ccy) == 3, Resolve(d, companyId);
      && (r == Err(Invalid) <==> !fit) && (r == Err(NotFound) <==> fit && found.None?)
      && (r.Ok? <==> fit && found.Some?)
      && (r.Ok? ==>
            var list := ListAt(d.vibans, found.value);
            && r.value == d.(vibans := r.value.vibans)
            && ((exists v :: v in list && v.currency == ccy) ==> r.value == d)
            && (!(exists v :: v in list && v.currency == ccy) ==>
                  && ListAt(r.value.vibans, found.value) == list + [Viban(id, found.value, ccy, ts)]
                  && forall k :: k != found.value ==> ListAt(r.value.vibans, k) == ListAt(d.vibans, k)))
  {
    hide TrimSpace, Upper, ByteLength, Resolve;
    if Resolve(d, companyId).Some? {
      var list := ListAt(d.vibans, Resolve(d, companyId).value);
      var ccy := Upper(TrimSpace(currency));
      if v :| v in list && v.currency == ccy {
        var i :| 0 <= i < |list| && list[i] == v;
        assert HasCurrency(list, ccy);
      }
    }
  }

  lemma UpperMeaning(s: string, i: nat)
    requires i < |s|
    ensures |Upper(s)| == |s|
    ensures 'a' <= s[i] <= 'z' ==> Upper(s)[i] as int == s[i] as int - 32
    ensures !('a' <= s[i] <= 'z') ==> Upper(s)[i] == s[i]
  {
  }

  /** A state file lists everything in the order it was created, ids deciding between the same moment. */
  lemma SnapshotOrder(d: Dir, s: State, i: nat, j: nat)
    requires IsSnapshot(d, s) && i < j
    ensures j < |s.companies| ==>
      AtMost(s.companies[i].createdAt + s.companies[i].id, s.companies[j].createdAt + s.companies[j].id)
    ensures j < |s.addresses| ==>
      AtMost(s.addresses[i].createdAt + s.addresses[i].id, s.addresses[j].createdAt + s.addresses[j].id)
    ensures j < |s.people| ==> AtMost(s.people[i].createdAt + s.people[i].id, s.people[j].createdAt + s.people[j].id)
    ensures j < |s.extended| ==>
      AtMost(s.extended[i].createdAt + s.extended[i].id, s.extended[j].createdAt + s.extended[j].id)
    ensures j < |s.documents| ==>
      AtMost(s.documents[i].createdAt + s.documents[i].id, s.documents[j].createdAt + s.documents[j].id)
    ensures j < |s.vibans| ==> AtMost(s.vibans[i].createdAt + s.vibans[i].id, s.vibans[j].createdAt + s.vibans[j].id)
  {
    hide AtMost, Lists, ListsAll;
    assert j < |s.companies| ==> ByKey(CompanyKey)(s.companies[i], s.companies[j]);
    assert j < |s.addresses| ==> ByKey(AddressKey)(s.addresses[i], s.addresses[j]);
    assert j < |s.people| ==> ByKey(PersonKey)(s.people[i], s.people[j]);
    assert j < |s.extended| ==> ByKey(ProfileKey)(s.extended[i], s.extended[j]);
    assert j < |s.documents| ==> ByKey(DocumentKey)(s.documents[i], s.documents[j]);
    assert j < |s.vibans| ==> ByKey(VibanKey)(s.vibans[i], s.vibans[j]);
  }

  // --------------------------------------------------------------- screening

  /** A company's status after a screening is the one given, one of three; nothing else but its time of change moves. */
  lemma ScreenCompanyMeaning(d: Dir, companyId: string, status: string, ts: string)
    requires RefsAgree(d.companies, d.companiesByRef)
    ensures var r, found := CompanyScreened(d, companyId, status, ts), Resolve(d, companyId);
      var fit := status == "pass" || status == "review" || status == "fail";
      && (r == Err(Invalid) <==> !fit) && (r == Err(NotFound) <==> fit && found.None?)
      && (r.Ok? <==> fit && found.Some?)
      && (r.Ok? ==>
            && found.value in d.companies && found.value in r.value.companies
            && r.value == d.(companies := d.companies[found.value := r.value.companies[found.value]])
            && r.value.companies[found.value].sanctionsStatus == status
            && r.value.companies[found.value].updatedAt == ts
            && d.companies[found.value] == r.value.companies[found.value].(
                 sanctionsStatus := d.companies[found.value].sanctionsStatus,
                 updatedAt := d.companies[found.value].updatedAt))
  {
    hide Resolve;
    if Resolve(d, companyId).Some? {
      ResolvedIsCompany(d, companyId);
    }
  }

  /** A person's two statuses after a screening: each given one as given, each empty one as it was. */
  lemma ScreenPersonMeaning(d: Dir, id: string, status: string, pep: string, ts: string)
    ensures var r := PersonScreened(d, id, status, pep, ts);
      var fit := (status == "" || status == "pass" || status == "review" || status == "fail")
                 && (pep == "" || pep == "pass" || pep == "review" || pep == "fail") && (status != "" || pep != "");
      && (r == Err(Invalid) <==> !fit) && (r == Err(NotFound) <==> fit && id !in d.people)
      && (r.Ok? <==> fit && id in d.people)
      && (r.Ok? ==>
            && r.value == d.(people := d.people[id := r.value.people[id]])
            && var p, q := d.people[id], r.value.people[id];
               && q.sanctionsStatus == (if status == "" then p.sanctionsStatus else status)
               && q.pepSanctionsStatus == (if pep == "" then p.pepSanctionsStatus else pep)
               && q.updatedAt == ts
               && p == q.(sanctionsStatus := p.sanctionsStatus, pepSanctionsStatus := p.pepSanctionsStatus,
                          updatedAt := p.updatedAt))
  {
  }
}
