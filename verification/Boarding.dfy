/** internal/b4b/directory.go, company.go and the directory half of state.go: the boarding store. */
module Boarding {
  import opened Text
  import opened Sorting
  import opened Snapshots

  datatype Address = Address(
    line1: string, line2: string, city: string, region: string, postalCode: string, country: string)

  datatype Company = Company(
    id: string, externalRef: string, legalName: string, merchantCategoryCode: string,
    companyDocumentsWaived: bool, personDocumentsWaived: bool, address: Option<Address>,
    sanctionsStatus: string, createdAt: string, updatedAt: string)

  datatype CompanyAddress = CompanyAddress(
    id: string, companyId: string, kind: string, address: Address, createdAt: string)

  datatype Person = Person(
    id: string, companyId: string, externalRef: string, entityType: string,
    firstName: string, lastName: string, dateOfBirth: string, legalName: string,
    documentType: string, documentNumber: string, documentCountry: string,
    sanctionsStatus: string, pepSanctionsStatus: string, createdAt: string, updatedAt: string)

  datatype Profile = Profile(
    id: string, companyId: string, registeredCompanyNo: string, documents: seq<string>, createdAt: string)

  datatype Document = Document(id: string, documentType: string, fileName: string, size: int, createdAt: string)

  datatype Viban = Viban(id: string, companyId: string, currency: string, createdAt: string)

  /** companiesByRef holds the id of the company it points at. */
  datatype Dir = Dir(
    companies: map<string, Company>, companiesByRef: map<string, string>,
    addresses: map<string, seq<CompanyAddress>>,
    people: map<string, Person>, peopleByCompany: map<string, seq<string>>,
    extended: map<string, Profile>, documents: map<string, Document>,
    vibans: map<string, seq<Viban>>)

  datatype BoardingError = NotFound | Invalid | Duplicate | RequirementUnmet

  const PASS: string := "pass"
  const REVIEW: string := "review"
  const FAIL: string := "fail"
  const NATURAL_PERSON: string := "natural_person"
  const LEGAL_ENTITY: string := "legal_entity"
  const NEW_DIR: Dir := Dir(map[], map[], map[], map[], map[], map[], map[], map[])

  // -------------------------------------------------------------- validation

  datatype CompanyParams = CompanyParams(
    externalRef: string, legalName: string, merchantCategoryCode: string,
    companyDocumentsWaived: bool, personDocumentsWaived: bool, address: Option<Address>)

  datatype AddressParams = AddressParams(kind: string, address: Address)

  datatype PersonParams = PersonParams(
    externalRef: string, entityType: string, firstName: string, lastName: string, dateOfBirth: string,
    legalName: string,
    documentType: string, documentNumber: string, documentCountry: string)

  datatype ProfileParams = ProfileParams(registeredCompanyNo: string, documents: seq<string>)

  datatype DocumentParams = DocumentParams(documentType: string, fileName: string, size: int)

  predicate Blank(s: string) {
    TrimSpace(s) == ""
  }

  predicate FourDigits(s: string) {
    ByteLength(s) == 4 && forall i :: 0 <= i < |s| ==> '0' <= s[i] <= '9'
  }

  predicate AddressAccepted(a: Address) {
    !Blank(a.line1) && !Blank(a.city) && ByteLength(TrimSpace(a.country)) == 2
  }

  predicate CompanyAccepted(p: CompanyParams) {
    && !Blank(p.legalName) && p.address.Some? && AddressAccepted(p.address.value)
    && (p.merchantCategoryCode == "" || FourDigits(p.merchantCategoryCode))
  }

  predicate DocumentFields(documentType: string, documentNumber: string, documentCountry: string) {
    !Blank(documentType) && !Blank(documentNumber) && !Blank(documentCountry)
  }

  function ValidatePerson(p: PersonParams, waived: bool): Option<BoardingError> {
    if p.entityType == "" || p.entityType == NATURAL_PERSON then
      if Blank(p.firstName) || Blank(p.lastName) || Blank(p.dateOfBirth) then Some(Invalid)
      else if !waived && !DocumentFields(p.documentType, p.documentNumber, p.documentCountry)
        then Some(RequirementUnmet)
      else None
    else if p.entityType == LEGAL_ENTITY then
      if Blank(p.legalName) then Some(Invalid) else None
    else Some(Invalid)
  }

  function ValidateProfile(p: ProfileParams, waived: bool): Option<BoardingError> {
    if Blank(p.registeredCompanyNo) then Some(Invalid)
    else if !waived && p.documents == [] then Some(RequirementUnmet)
    else None
  }

  // -------------------------------------------------------------- operations

  /** The company an id or, failing that, an external reference stands for. */
  function Resolve(d: Dir, id: string): Option<string> {
    if id in d.companies then Some(id)
    else if id in d.companiesByRef then Some(d.companiesByRef[id])
    else None
  }

  function NewCompany(p: CompanyParams, id: string, ts: string): Company {
    Company(id, p.externalRef, p.legalName, p.merchantCategoryCode,
            p.companyDocumentsWaived, p.personDocumentsWaived, p.address, PASS, ts, ts)
  }

  function CompanyCreated(d: Dir, p: CompanyParams, id: string, addressId: string, ts: string)
    : Result<Dir, BoardingError>
  {
    if !CompanyAccepted(p) then Err(Invalid)
    else if p.externalRef != "" && p.externalRef in d.companiesByRef then Err(Duplicate)
    else
      var office := CompanyAddress(addressId, id, "registered", p.address.value, ts);
      Ok(d.(companies := d.companies[id := NewCompany(p, id, ts)],
            companiesByRef := if p.externalRef != "" then d.companiesByRef[p.externalRef := id] else d.companiesByRef,
            addresses := d.addresses[id := ListAt(d.addresses, id) + [office]]))
  }

  function AddressAdded(d: Dir, companyId: string, p: AddressParams, id: string, ts: string)
    : Result<Dir, BoardingError>
  {
    if Blank(p.kind) || !AddressAccepted(p.address) then Err(Invalid)
    else
      match Resolve(d, companyId)
      case None => Err(NotFound)
      case Some(cid) =>
        var a := CompanyAddress(id, cid, p.kind, p.address, ts);
        Ok(d.(addresses := d.addresses[cid := ListAt(d.addresses, cid) + [a]]))
  }

  /** What the first critical section of AddPerson or CreateExtended hands to the second. */
  datatype Task =
    | PersonTask(cid: string, waived: bool, person: PersonParams)
    | ProfileTask(cid: string, waived: bool, unknown: seq<string>, profile: ProfileParams)

  function PersonLooked(d: Dir, companyId: string, p: PersonParams): Result<Task, BoardingError> {
    match Resolve(d, companyId)
    case None => Err(NotFound)
    case Some(cid) =>
      if cid !in d.companies then Err(NotFound)
      else Ok(PersonTask(cid, d.companies[cid].personDocumentsWaived, p))
  }

  function NewPerson(cid: string, p: PersonParams, id: string, ts: string): Person {
    Person(id, cid, p.externalRef, if p.entityType == "" then NATURAL_PERSON else p.entityType,
           p.firstName, p.lastName, p.dateOfBirth, p.legalName,
           p.documentType, p.documentNumber, p.documentCountry, PASS, PASS, ts, ts)
  }

  function PersonAdded(d: Dir, t: Task, id: string, ts: string): Result<Dir, BoardingError>
    requires t.PersonTask?
  {
    match ValidatePerson(t.person, t.waived)
    case Some(e) => Err(e)
    case None =>
      Ok(d.(people := d.people[id := NewPerson(t.cid, t.person, id, ts)],
            peopleByCompany := d.peopleByCompany[t.cid := ListAt(d.peopleByCompany, t.cid) + [id]]))
  }

  function Unknown(d: Dir, refs: seq<string>): seq<string> {
    if refs == [] then []
    else Unknown(d, refs[..|refs| - 1]) + if refs[|refs| - 1] in d.documents then [] else [refs[|refs| - 1]]
  }

  function ProfileLooked(d: Dir, companyId: string, p: ProfileParams): Result<Task, BoardingError> {
    match Resolve(d, companyId)
    case None => Err(NotFound)
    case Some(cid) =>
      if cid !in d.companies then Err(NotFound)
      else if cid in d.extended then Err(Duplicate)
      else Ok(ProfileTask(cid, d.companies[cid].companyDocumentsWaived, Unknown(d, p.documents), p))
  }

  function NewProfile(t: Task, id: string, ts: string): Profile
    requires t.ProfileTask?
  {
    Profile(id, t.cid, t.profile.registeredCompanyNo, t.profile.documents, ts)
  }

  function ProfileAdded(d: Dir, t: Task, id: string, ts: string): Result<Dir, BoardingError>
    requires t.ProfileTask?
  {
    match ValidateProfile(t.profile, t.waived)
    case Some(e) => Err(e)
    case None =>
      if t.unknown != [] then Err(Invalid)
      else if t.cid in d.extended then Err(Duplicate)
      else Ok(d.(extended := d.extended[t.cid := NewProfile(t, id, ts)]))
  }

  function DocumentAdded(d: Dir, p: DocumentParams, id: string, ts: string): Dir {
    d.(documents := d.documents[id := Document(id, p.documentType, p.fileName, p.size, ts)])
  }

  function Upper(s: string): string {
    seq(|s|, i requires 0 <= i < |s| => if 'a' <= s[i] <= 'z' then (s[i] as int - 32) as char else s[i])
  }

  predicate HasCurrency(list: seq<Viban>, currency: string) {
    exists i :: 0 <= i < |list| && list[i].currency == currency
  }

  function VibanAdded(d: Dir, companyId: string, currency: string, id: string, ts: string): Result<Dir, BoardingError> {
    var ccy := Upper(TrimSpace(currency));
    if ByteLength(ccy) != 3 then Err(Invalid)
    else
      match Resolve(d, companyId)
      case None => Err(NotFound)
      case Some(cid) =>
        var list := ListAt(d.vibans, cid);
        if HasCurrency(list, ccy) then Ok(d)
        else Ok(d.(vibans := d.vibans[cid := list + [Viban(id, cid, ccy, ts)]]))
  }

  predicate SanctionsAllowed(status: string) {
    status == PASS || status == REVIEW || status == FAIL
  }

  function CompanyScreened(d: Dir, companyId: string, status: string, ts: string): Result<Dir, BoardingError> {
    if !SanctionsAllowed(status) then Err(Invalid)
    else
      match Resolve(d, companyId)
      case None => Err(NotFound)
      case Some(cid) =>
        if cid !in d.companies then Err(NotFound)
        else Ok(d.(companies := d.companies[cid := d.companies[cid].(sanctionsStatus := status, updatedAt := ts)]))
  }

  function PersonScreened(d: Dir, id: string, status: string, pep: string, ts: string): Result<Dir, BoardingError> {
    if (status != "" && !SanctionsAllowed(status)) || (pep != "" && !SanctionsAllowed(pep)) then Err(Invalid)
    else if status == "" && pep == "" then Err(Invalid)
    else if id !in d.people then Err(NotFound)
    else
      var p := d.people[id];
      Ok(d.(people := d.people[id := p.(sanctionsStatus := if status != "" then status else p.sanctionsStatus,
                                        pepSanctionsStatus := if pep != "" then pep else p.pepSanctionsStatus,
                                        updatedAt := ts)]))
  }

  // ------------------------------------------------------------ persistence

  /** The directory's part of the state file. */
  datatype State = State(
    companies: seq<Company>, addresses: seq<CompanyAddress>, people: seq<Person>,
    extended: seq<Profile>, documents: seq<Document>, vibans: seq<Viban>)

  function CompanyId(c: Company): string { c.id }
  function AddressOwner(a: CompanyAddress): string { a.companyId }
  function PersonId(p: Person): string { p.id }
  function ProfileOwner(e: Profile): string { e.companyId }
  function DocumentId(doc: Document): string { doc.id }
  function VibanOwner(v: Viban): string { v.companyId }

  function CompanyKey(c: Company): string { c.createdAt + c.id }
  function AddressKey(a: CompanyAddress): string { a.createdAt + a.id }
  function PersonKey(p: Person): string { p.createdAt + p.id }
  function ProfileKey(e: Profile): string { e.createdAt + e.id }
  function DocumentKey(doc: Document): string { doc.createdAt + doc.id }
  function VibanKey(v: Viban): string { v.createdAt + v.id }

  /** s is a state file of d: every record once, each list sorted by creation time and id. */
  ghost predicate IsSnapshot(d: Dir, s: State) {
    && Lists(d.companies, s.companies, CompanyId) && Sorted(s.companies, ByKey(CompanyKey))
    && ListsAll(d.addresses, s.addresses, AddressOwner) && Sorted(s.addresses, ByKey(AddressKey))
    && Lists(d.people, s.people, PersonId) && Sorted(s.people, ByKey(PersonKey))
    && Lists(d.extended, s.extended, ProfileOwner) && Sorted(s.extended, ByKey(ProfileKey))
    && Lists(d.documents, s.documents, DocumentId) && Sorted(s.documents, ByKey(DocumentKey))
    && ListsAll(d.vibans, s.vibans, VibanOwner) && Sorted(s.vibans, ByKey(VibanKey))
  }

  function RefsOf(refs: map<string, string>, s: seq<Company>): map<string, string> {
    if s == [] then refs
    else
      var m := RefsOf(refs, s[..|s| - 1]);
      var c := s[|s| - 1];
      if c.externalRef != "" then m[c.externalRef := c.id] else m
  }

  function PeopleLists(m: map<string, seq<string>>, s: seq<Person>): map<string, seq<string>> {
    if s == [] then m
    else
      var r := PeopleLists(m, s[..|s| - 1]);
      var p := s[|s| - 1];
      r[p.companyId := ListAt(r, p.companyId) + [p.id]]
  }

  /** Restore: the state is merged into what is there. */
  function Restored(d: Dir, s: State): Dir {
    Dir(Filed(d.companies, s.companies, CompanyId), RefsOf(d.companiesByRef, s.companies),
        Grouped(d.addresses, s.addresses, AddressOwner),
        Filed(d.people, s.people, PersonId), PeopleLists(d.peopleByCompany, s.people),
        Filed(d.extended, s.extended, ProfileOwner), Filed(d.documents, s.documents, DocumentId),
        Grouped(d.vibans, s.vibans, VibanOwner))
  }

  /** What the maps promise for Snapshot to list each record under its own key. */
  ghost predicate Keyed(d: Dir) {
    && KeyedBy(d.companies, CompanyId) && KeyedBy(d.people, PersonId)
    && KeyedBy(d.extended, ProfileOwner) && KeyedBy(d.documents, DocumentId)
    && OwnedBy(d.addresses, AddressOwner) && OwnedBy(d.vibans, VibanOwner)
  }

  // ------------------------------------------------------------------ class

  class Directory {
    var companies: map<string, Company>
    var companiesByRef: map<string, string>
    var addresses: map<string, seq<CompanyAddress>>
    var people: map<string, Person>
    var peopleByCompany: map<string, seq<string>>
    var extended: map<string, Profile>
    var documents: map<string, Document>
    var vibans: map<string, seq<Viban>>

    function View(): Dir
      reads this
    {
      Dir(companies, companiesByRef, addresses, people, peopleByCompany, extended, documents, vibans)
    }

    constructor ()
      ensures View() == NEW_DIR
    {
      companies, companiesByRef, addresses := map[], map[], map[];
      people, peopleByCompany := map[], map[];
      extended, documents, vibans := map[], map[], map[];
    }

    /** resolveCompanyLocked */
    method ResolveCompany(id: string) returns (cid: Option<string>)
      ensures cid == Resolve(View(), id)
    {
      if id in companies {
        return Some(id);
      }
      if id in companiesByRef {
        return Some(companiesByRef[id]);
      }
      return None;
    }

    method CreateCompany(p: CompanyParams, id: string, addressId: string, ts: string) returns (e: Option<BoardingError>)
      modifies this
      ensures match CompanyCreated(old(View()), p, id, addressId, ts)
              case Err(err) => e == Some(err) && View() == old(View())
              case Ok(d) => e == None && View() == d
    {
      hide CompanyAccepted;
      if !CompanyAccepted(p) {
        return Some(Invalid);
      }
      if p.externalRef != "" {
        if p.externalRef in companiesByRef {
          return Some(Duplicate);
        }
      }
      var c := NewCompany(p, id, ts);
      companies := companies[c.id := c];
      if c.externalRef != "" {
        companiesByRef := companiesByRef[c.externalRef := c.id];
      }
      assert p.address.Some? by { AcceptedHasAddress(p); }
      if c.address.Some? {
        var a := CompanyAddress(addressId, c.id, "registered", c.address.value, ts);
        addresses := addresses[c.id := ListAt(addresses, c.id) + [a]];
      }
      return None;
    }

    method AddAddress(companyId: string, p: AddressParams, id: string, ts: string) returns (e: Option<BoardingError>)
      modifies this
      ensures match AddressAdded(old(View()), companyId, p, id, ts)
              case Err(err) => e == Some(err) && View() == old(View())
              case Ok(d) => e == None && View() == d
    {
      hide AddressAccepted, Blank;
      if Blank(p.kind) || !AddressAccepted(p.address) {
        return Some(Invalid);
      }
      var cid := ResolveCompany(companyId);
      if cid.None? {
        return Some(NotFound);
      }
      var a := CompanyAddress(id, cid.value, p.kind, p.address, ts);
      addresses := addresses[cid.value := ListAt(addresses, cid.value) + [a]];
      return None;
    }

    /** AddPerson up to the first unlock. */
    method LookForPerson(companyId: string, p: PersonParams) returns (r: Result<Task, BoardingError>)
      ensures r == PersonLooked(View(), companyId, p)
    {
      var cid := ResolveCompany(companyId);
      if cid.None? || cid.value !in companies {
        return Err(NotFound);
      }
      return Ok(PersonTask(cid.value, companies[cid.value].personDocumentsWaived, p));
    }

    /** AddPerson from the validation on. */
    method FinishPerson(t: Task, id: string, ts: string) returns (e: Option<BoardingError>)
      requires t.PersonTask?
      modifies this
      ensures match PersonAdded(old(View()), t, id, ts)
              case Err(err) => e == Some(err) && View() == old(View())
              case Ok(d) => e == None && View() == d
    {
      hide ValidatePerson;
      e := ValidatePerson(t.person, t.waived);
      if e.Some? {
        return;
      }
      var person := NewPerson(t.cid, t.person, id, ts);
      people := people[person.id := person];
      peopleByCompany := peopleByCompany[t.cid := ListAt(peopleByCompany, t.cid) + [person.id]];
    }

    /** CreateExtended up to the first unlock. */
    method LookForExtended(companyId: string, p: ProfileParams) returns (r: Result<Task, BoardingError>)
      ensures r == ProfileLooked(View(), companyId, p)
    {
      var cid := ResolveCompany(companyId);
      if cid.None? || cid.value !in companies {
        return Err(NotFound);
      }
      if cid.value in extended {
        return Err(Duplicate);
      }
      var unknown: seq<string> := [];
      for i := 0 to |p.documents|
        invariant unknown == Unknown(View(), p.documents[..i])
      {
        if p.documents[i] !in documents {
          unknown := unknown + [p.documents[i]];
        }
        assert p.documents[..i + 1][..i] == p.documents[..i];
      }
      assert p.documents[..|p.documents|] == p.documents;
      return Ok(ProfileTask(cid.value, companies[cid.value].companyDocumentsWaived, unknown, p));
    }

    /** CreateExtended from the validation on: the profile is looked for again under the lock. */
    method FinishExtended(t: Task, id: string, ts: string) returns (e: Option<BoardingError>)
      requires t.ProfileTask?
      modifies this
      ensures match ProfileAdded(old(View()), t, id, ts)
              case Err(err) => e == Some(err) && View() == old(View())
              case Ok(d) => e == None && View() == d
    {
      hide ValidateProfile;
      e := ValidateProfile(t.profile, t.waived);
      if e.Some? {
        return;
      }
      if |t.unknown| > 0 {
        return Some(Invalid);
      }
      if t.cid in extended {
        return Some(Duplicate);
      }
      extended := extended[t.cid := Profile(id, t.cid, t.profile.registeredCompanyNo, t.profile.documents, ts)];
    }

    method AddDocument(p: DocumentParams, id: string, ts: string)
      modifies this
      ensures View() == DocumentAdded(old(View()), p, id, ts)
    {
      documents := documents[id := Document(id, p.documentType, p.fileName, p.size, ts)];
    }

    method AddViban(companyId: string, currency: string, id: string, ts: string)
      returns (r: Result<Viban, BoardingError>)
      modifies this
      ensures match VibanAdded(old(View()), companyId, currency, id, ts)
              case Err(err) => r == Err(err) && View() == old(View())
              case Ok(d) => View() == d && r.Ok? && r.value.currency == Upper(TrimSpace(currency))
                            && r.value in ListAt(d.vibans, Resolve(old(View()), companyId).value)
    {
      hide Upper, TrimSpace;
      var ccy := Upper(TrimSpace(currency));
      if ByteLength(ccy) != 3 {
        return Err(Invalid);
      }
      var cid := ResolveCompany(companyId);
      if cid.None? {
        return Err(NotFound);
      }
      var list := ListAt(vibans, cid.value);
      for i := 0 to |list|
        invariant forall j :: 0 <= j < i ==> list[j].currency != ccy
      {
        if list[i].currency == ccy {
          return Ok(list[i]);
        }
      }
      var v := Viban(id, cid.value, ccy, ts);
      vibans := vibans[cid.value := list + [v]];
      return Ok(v);
    }

    method SetCompanySanctions(companyId: string, status: string, ts: string) returns (e: Option<BoardingError>)
      modifies this
      ensures match CompanyScreened(old(View()), companyId, status, ts)
              case Err(err) => e == Some(err) && View() == old(View())
              case Ok(d) => e == None && View() == d
    {
      if !SanctionsAllowed(status) {
        return Some(Invalid);
      }
      var cid := ResolveCompany(companyId);
      if cid.None? || cid.value !in companies {
        return Some(NotFound);
      }
      companies := companies[cid.value := companies[cid.value].(sanctionsStatus := status, updatedAt := ts)];
      return None;
    }

    method SetPersonSanctions(id: string, status: string, pep: string, ts: string) returns (e: Option<BoardingError>)
      modifies this
      ensures match PersonScreened(old(View()), id, status, pep, ts)
              case Err(err) => e == Some(err) && View() == old(View())
              case Ok(d) => e == None && View() == d
    {
      hide SanctionsAllowed;
      if status != "" && !SanctionsAllowed(status) {
        return Some(Invalid);
      }
      if pep != "" && !SanctionsAllowed(pep) {
        return Some(Invalid);
      }
      if status == "" && pep == "" {
        return Some(Invalid);
      }
      if id !in people {
        return Some(NotFound);
      }
      var p := people[id];
      if status != "" {
        p := p.(sanctionsStatus := status);
      }
      if pep != "" {
        p := p.(pepSanctionsStatus := pep);
      }
      p := p.(updatedAt := ts);
      people := people[id := p];
      return None;
    }

    method Snapshot() returns (s: State)
      requires Keyed(View())
      ensures IsSnapshot(View(), s)
    {
      var cs := Collect(companies, CompanyId);
      var adrs := Flatten(addresses, AddressOwner);
      var ps := Collect(people, PersonId);
      var es := Collect(extended, ProfileOwner);
      var docs := Collect(documents, DocumentId);
      var vs := Flatten(vibans, VibanOwner);
      ArrangedSorted(cs, CompanyKey);
      ArrangedSorted(adrs, AddressKey);
      ArrangedSorted(ps, PersonKey);
      ArrangedSorted(es, ProfileKey);
      ArrangedSorted(docs, DocumentKey);
      ArrangedSorted(vs, VibanKey);
      s := State(Arranged(cs, CompanyKey), Arranged(adrs, AddressKey), Arranged(ps, PersonKey),
                 Arranged(es, ProfileKey), Arranged(docs, DocumentKey), Arranged(vs, VibanKey));
    }

    method Restore(s: State)
      modifies this
      ensures View() == Restored(old(View()), s)
    {
      RestoreCompanies(s.companies);
      RestoreLists(s.addresses, s.vibans);
      RestorePeople(s.people);
      RestoreRecords(s.extended, s.documents);
    }

    /** The loops of Restore, map by map. */
    method RestoreCompanies(cs: seq<Company>)
      modifies this`companies, this`companiesByRef
      ensures companies == Filed(old(companies), cs, CompanyId)
      ensures companiesByRef == RefsOf(old(companiesByRef), cs)
    {
      for i := 0 to |cs|
        invariant companies == Filed(old(companies), cs[..i], CompanyId)
        invariant companiesByRef == RefsOf(old(companiesByRef), cs[..i])
      {
        var c := cs[i];
        companies := companies[c.id := c];
        if c.externalRef != "" {
          companiesByRef := companiesByRef[c.externalRef := c.id];
        }
        assert cs[..i + 1][..i] == cs[..i];
      }
      assert cs[..|cs|] == cs;
    }

    method RestoreLists(adrs: seq<CompanyAddress>, vs: seq<Viban>)
      modifies this`addresses, this`vibans
      ensures addresses == Grouped(old(addresses), adrs, AddressOwner)
      ensures vibans == Grouped(old(vibans), vs, VibanOwner)
    {
      for i := 0 to |adrs|
        invariant addresses == Grouped(old(addresses), adrs[..i], AddressOwner)
        invariant vibans == old(vibans)
      {
        var a := adrs[i];
        addresses := addresses[a.companyId := ListAt(addresses, a.companyId) + [a]];
        assert adrs[..i + 1][..i] == adrs[..i];
      }
      assert adrs[..|adrs|] == adrs;
      for i := 0 to |vs|
        invariant addresses == Grouped(old(addresses), adrs, AddressOwner)
        invariant vibans == Grouped(old(vibans), vs[..i], VibanOwner)
      {
        var v := vs[i];
        vibans := vibans[v.companyId := ListAt(vibans, v.companyId) + [v]];
        assert vs[..i + 1][..i] == vs[..i];
      }
      assert vs[..|vs|] == vs;
    }

    method RestoreRecords(es: seq<Profile>, docs: seq<Document>)
      modifies this`extended, this`documents
      ensures extended == Filed(old(extended), es, ProfileOwner)
      ensures documents == Filed(old(documents), docs, DocumentId)
    {
      for i := 0 to |es|
        invariant extended == Filed(old(extended), es[..i], ProfileOwner)
        invariant documents == old(documents)
      {
        extended := extended[es[i].companyId := es[i]];
        assert es[..i + 1][..i] == es[..i];
      }
      assert es[..|es|] == es;
      for i := 0 to |docs|
        invariant extended == Filed(old(extended), es, ProfileOwner)
        invariant documents == Filed(old(documents), docs[..i], DocumentId)
      {
        documents := documents[docs[i].id := docs[i]];
        assert docs[..i + 1][..i] == docs[..i];
      }
      assert docs[..|docs|] == docs;
    }

    method RestorePeople(ps: seq<Person>)
      modifies this`people, this`peopleByCompany
      ensures people == Filed(old(people), ps, PersonId)
      ensures peopleByCompany == PeopleLists(old(peopleByCompany), ps)
    {
      for i := 0 to |ps|
        invariant people == Filed(old(people), ps[..i], PersonId)
        invariant peopleByCompany == PeopleLists(old(peopleByCompany), ps[..i])
      {
        var p := ps[i];
        people := people[p.id := p];
        peopleByCompany := peopleByCompany[p.companyId := ListAt(peopleByCompany, p.companyId) + [p.id]];
        assert ps[..i + 1][..i] == ps[..i];
      }
      assert ps[..|ps|] == ps;
    }
  }

  lemma AcceptedHasAddress(p: CompanyParams)
    requires CompanyAccepted(p)
    ensures p.address.Some?
  {
  }
}
