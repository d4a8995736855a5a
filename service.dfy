/** DataParserService (example.php): turns one organization payload into rows of the
    registry inside one transaction, resolving every related entity against the store and
    against three run-scoped caches. Each method is proved against its function in
    resolution.dfy; the properties of those functions are in properties.dfy and tracking.dfy. */
module Service {
  import opened Entities
  import opened Resolution
  import opened Tracking

  class DataParserService {
    /** Enum constants, mb_strtolower and the date parser. */
    const config: Config
    /** The committed rows of the database the entity manager is connected to. */
    var store: seq<Row>
    /** The unit of work: writes persisted or changed and not yet flushed. */
    var pending: seq<Change>
    /** Writes flushed inside the open transaction and not yet committed. */
    var flushed: seq<Change>
    var inTransaction: bool
    /** Whether the entity manager is open; a failed flush closes it. */
    var managerOpen: bool
    /** $persons, keyed by inn. */
    var persons: map<string, Person>
    /** $authorities, keyed by "code_type". */
    var authorities: map<string, Authority>
    /** $organizationAuthorities, keyed by "inn_code_role". */
    var organizationAuthorities: map<string, OrganizationAuthority>

    ghost function State(): RunState
      reads this
    {
      RunState(pending, persons, authorities, organizationAuthorities)
    }

    /** Between two messages: no transaction, nothing pending, each cache entry under its
        own index. */
    ghost predicate Idle()
      reads this
    {
      !inTransaction && pending == [] && flushed == [] && Coherent(State())
    }

    constructor (config: Config, store: seq<Row>)
      ensures this.config == config && this.store == store
      ensures pending == [] && flushed == [] && !inTransaction && managerOpen
      ensures persons == map[] && authorities == map[] && organizationAuthorities == map[]
      ensures Idle()
    {
      this.config := config;
      this.store := store;
      pending := [];
      flushed := [];
      inTransaction := false;
      managerOpen := true;
      persons := map[];
      authorities := map[];
      organizationAuthorities := map[];
    }

    // -------------------------------------------------------------------------
    // The entity manager
    // -------------------------------------------------------------------------

    /** persist() of a new entity. */
    method QueueInsert(row: Row)
      modifies this`pending
      ensures pending == old(pending) + [Insert(row)]
    {
      pending := pending + [Insert(row)];
    }

    /** persist() of an entity the unit of work may already hold. */
    method QueueInsertOnce(row: Row)
      modifies this`pending
      ensures State() == PersistOnce(old(State()), row)
    {
      if Insert(row) !in pending {
        pending := pending + [Insert(row)];
      }
    }

    /** A managed entity whose fields were set. */
    method QueueUpdate(row: Row)
      modifies this`pending
      ensures pending == old(pending) + [Update(row)]
    {
      pending := pending + [Update(row)];
    }

    method BeginTransaction()
      modifies this`inTransaction
      ensures inTransaction
    {
      inTransaction := true;
    }

    /** Writes the unit of work inside the transaction; `failure` is what the database
        raises, if anything, and it closes the entity manager. */
    method Flush(failure: Option<Error>) returns (e: Option<Error>)
      modifies this`pending, this`flushed, this`managerOpen
      ensures e == failure
      ensures failure.Some? ==> pending == old(pending) && flushed == old(flushed) && !managerOpen
      ensures failure.None? ==> pending == [] && flushed == old(flushed) + old(pending) && managerOpen == old(managerOpen)
    {
      if failure.Some? {
        managerOpen := false;
        return failure;
      }
      flushed := flushed + pending;
      pending := [];
      return None;
    }

    method Commit()
      modifies this`store, this`flushed, this`inTransaction
      ensures store == Apply(old(store), old(flushed)) && flushed == [] && !inTransaction
    {
      store := Apply(store, flushed);
      flushed := [];
      inTransaction := false;
    }

    method Rollback()
      modifies this`flushed, this`inTransaction
      ensures flushed == [] && !inTransaction
    {
      flushed := [];
      inTransaction := false;
    }

    /** The entity manager's clear(): the unit of work forgets everything. */
    method ClearUnitOfWork()
      modifies this`pending
      ensures pending == []
    {
      pending := [];
    }

    // -------------------------------------------------------------------------
    // parse, create, fillOrganization, clear
    // -------------------------------------------------------------------------

    /** parse(): create the organization unless the store has it, then clear the caches.
        An exception from create() propagates, so the caches are not cleared then. */
    method Parse(data: Payload, flushError: Option<Error>) returns (e: Option<Error>)
      requires Idle()
      modifies this
      ensures Idle()
      ensures ParseResult(e, store, State()) == ParseSpec(config, old(store), old(State()), data, flushError)
    {
      OrganizationFirst(config, store, State(), data);
      var organization := FindOne(store, OrganizationKey(data.inn));
      if organization.None? {
        e := Create(data, flushError);
        if e.Some? {
          return;
        }
      } else {
        e := None;
      }
      Clear();
    }

    /** create(): everything inside one transaction; any exception rolls it back, clears
        the unit of work and is rethrown. */
    method Create(data: Payload, flushError: Option<Error>) returns (e: Option<Error>)
      requires !inTransaction && pending == [] && flushed == []
      modifies this
      ensures var built := BuildSpec(config, old(store), old(State()), data);
        && e == (if built.0.Some? then built.0 else flushError)
        && store == (if e.None? then Apply(old(store), built.1.changes) else old(store))
        && persons == built.1.persons && authorities == built.1.authorities
        && organizationAuthorities == built.1.links
        && pending == [] && flushed == [] && !inTransaction
        && managerOpen == (if ManagementInn(config, data.managers, data.management.name).Raised? then old(managerOpen)
                           else !(built.0.None? && flushError.Some?))
    {
      ghost var built := BuildSpec(config, store, State(), data);
      BeginTransaction();
      e := Build(data);
      assert e == built.0 && pending == built.1.changes;
      if e.None? {
        e := Flush(flushError);
        if e.None? {
          assert flushed == built.1.changes;
          Commit();
        } else {
          Rollback();
        }
      } else {
        Rollback();
      }
      ClearUnitOfWork();
    }

    /** The body of create()'s try block up to the flush. */
    method Build(data: Payload) returns (e: Option<Error>)
      modifies this`pending, this`persons, this`authorities, this`organizationAuthorities, this`managerOpen
      ensures (e, State()) == BuildSpec(config, store, old(State()), data)
      ensures managerOpen == (old(managerOpen) || ManagementInn(config, data.managers, data.management.name).Ok?)
    {
      e := FillOrganization(data);
      if e.None? {
        e := GetFounders(data.founders, data.inn);
        if e.None? {
          e := GetManagers(data.managers, data.inn);
          if e.None? {
            e := GetRecords(data);
          }
        }
      }
    }

    /** The steps of create() after the managers: the okveds, then the rest. */
    method GetRecords(data: Payload) returns (e: Option<Error>)
      modifies this`pending, this`authorities, this`organizationAuthorities
      ensures (e, State()) == RecordsSpec(config, store, old(State()), data)
    {
      e := GetOkveds(data.okveds, data.inn);
      if e.None? {
        GetRest(data);
      }
    }

    /** The steps after the okveds, none of which raises. */
    method GetRest(data: Payload)
      modifies this`pending, this`authorities, this`organizationAuthorities
      ensures State() == RestSpec(config, store, old(State()), data)
    {
      GetAuthorities(data.authorities, data.inn);
      GetDocuments(data.documents, data.inn);
      GetRegistrySmb(data.smb, data.inn);
      GetFinance(data.finance, data.inn);
      GetAddress(data.address, data.inn);
      GetLicenses(data.licenses, data.inn);
    }

    /** fillOrganization(): the organization's fields, its managementInn, a fresh entity
        manager if the last one was closed, and the organization persisted. A TypeError in
        the managementInn scan comes before the last two. */
    method FillOrganization(data: Payload) returns (e: Option<Error>)
      modifies this`pending, this`managerOpen
      ensures var mi := ManagementInn(config, data.managers, data.management.name);
        && (mi.Raised? ==> e == Some(TypeError) && pending == old(pending) && managerOpen == old(managerOpen))
        && (mi.Ok? ==>
              && e.None? && managerOpen
              && pending == old(pending) + [Insert(OrganizationRow(OrganizationOf(config, data, mi.value)))])
    {
      var managementInn := ScanManagementInn(data.managers, data.management.name);
      if managementInn.Raised? {
        return Some(managementInn.error);
      }
      e := None;
      var organization := Organization(data.inn, data.card, config.parseDate(data.card.ogrnDate),
                                       config.parseDate(data.card.actualityDate),
                                       config.parseDate(data.card.registrationDate),
                                       data.management, managementInn.value);
      if !managerOpen {
        managerOpen := true;
      }
      QueueInsert(OrganizationRow(organization));
    }

    /** The managers loop of fillOrganization(): the first manager the management block
        names, by a non-empty inn and the lowercased name; both names are lowercased before
        the inn is tested, so a null one raises. */
    method ScanManagementInn(managers: seq<RawManager>, managementName: Option<string>)
      returns (r: Outcome<Option<string>>)
      ensures r == ManagementInn(config, managers, managementName)
    {
      var i := 0;
      while i < |managers|
        invariant 0 <= i <= |managers|
        invariant ManagementInn(config, managers[i..], managementName) == ManagementInn(config, managers, managementName)
      {
        var manager := managers[i];
        if manager.fio.source.None? || managementName.None? {
          return Raised(TypeError);
        }
        var sourceName := config.lower(manager.fio.source.value);
        var managerName := config.lower(managementName.value);
        if !IsEmpty(manager.inn) && sourceName == managerName {
          return Ok(manager.inn);
        }
        assert managers[i..][1..] == managers[i + 1..];
        i := i + 1;
      }
      return Ok(None);
    }

    /** clear(): empties the three caches. */
    method Clear()
      modifies this`persons, this`authorities, this`organizationAuthorities
      ensures persons == map[] && authorities == map[] && organizationAuthorities == map[]
    {
      persons := map[];
      organizationAuthorities := map[];
      authorities := map[];
    }

    // -------------------------------------------------------------------------
    // Persons, foreign organizations, founders, managers
    // -------------------------------------------------------------------------

    method GetPerson(inn: Option<string>, fio: Fio) returns (r: Outcome<Person>)
      modifies this`pending, this`persons
      ensures (r, State()) == PersonSpec(config, store, old(State()), inn, fio)
    {
      if inn.None? {
        return Raised(MissingIdentifier);
      }
      var found := FindOne(store, PersonKey(inn.value));
      if inn.value in persons {
        return Ok(persons[inn.value]);
      }
      var person: Person;
      if found.Some? && found.value.PersonRow? {
        person := found.value.person;
      } else {
        if fio.gender.None? {
          return Raised(TypeError);
        }
        person := Person(inn.value, fio.surname, fio.name, fio.patronymic, config.lower(fio.gender.value), fio.source);
        QueueInsert(PersonRow(person));
      }
      persons := persons[inn.value := person];
      return Ok(person);
    }

    method GetForeignOrganization(hid: Option<string>, name: Option<string>) returns (r: Outcome<string>)
      modifies this`pending
      ensures (r, State()) == ForeignOrganizationSpec(store, old(State()), hid, name)
    {
      if hid.None? || name.None? {
        return Raised(TypeError);
      }
      var found := FindOne(store, ForeignOrganizationKey(hid.value));
      if found.Some? && found.value.ForeignOrganizationRow? {
        return Ok(found.value.hid);
      }
      QueueInsert(ForeignOrganizationRow(hid.value, name.value));
      return Ok(hid.value);
    }

    /** The identity triple, as getFounders and getManagers both compute it. */
    method Identify(physical: bool, legal: bool, inn: Option<string>, fio: Fio, hid: Option<string>,
                    name: Option<string>) returns (r: Outcome<Holder>)
      modifies this`pending, this`persons
      ensures (r, State()) == IdentifySpec(config, store, old(State()), physical, legal, inn, fio, hid, name)
    {
      var personInn: Option<string> := None;
      var orgInn: Option<string> := None;
      var displayName: Option<string> := None;
      if physical {
        var person := GetPerson(inn, fio);
        if person.Raised? {
          return Raised(person.error);
        }
        personInn := Some(person.value.inn);
        displayName := Some(FullName(fio));
      } else if legal {
        orgInn := inn;
        displayName := name;
      }
      var foreignOrgId: Option<string> := None;
      if IsEmpty(personInn) && IsEmpty(orgInn) {
        var foreign := GetForeignOrganization(hid, displayName);
        if foreign.Raised? {
          return Raised(foreign.error);
        }
        foreignOrgId := Some(foreign.value);
      }
      return Ok(Holder(personInn, orgInn, foreignOrgId));
    }

    method GetFounders(raws: seq<RawFounder>, org: string) returns (e: Option<Error>)
      modifies this`pending, this`persons
      ensures (e, State()) == FoundersSpec(config, store, old(State()), org, raws)
    {
      var i := 0;
      while i < |raws|
        invariant 0 <= i <= |raws|
        invariant FoundersSpec(config, store, old(State()), org, raws[..i]) == (None, State())
      {
        var raw := raws[i];
        assert raws[..i + 1][..i] == raws[..i];
        var holder := Identify(raw.founderType == config.founderPhysical, raw.founderType == config.founderLegal,
                               raw.inn, raw.fio, raw.hid, raw.name);
        if holder.Raised? {
          FoundersStopAtError(config, store, old(State()), org, raws, i + 1);
          return Some(holder.error);
        }
        var founder := FindOne(store, FounderKey(holder.value));
        var link, existing := GetOrganizationFounder(holder.value, org);
        var row := link.(founderType := raw.founderType, share := raw.share);
        if existing {
          QueueUpdate(row);
        } else {
          QueueInsert(row);
        }
        if founder.None? {
          QueueInsert(FounderRow(holder.value));
        }
        i := i + 1;
      }
      assert raws[..i] == raws;
      return None;
    }

    method GetOrganizationFounder(founder: Holder, org: string) returns (link: Row, existing: bool)
      ensures existing == Lookup(store, OrganizationFounderKey(org, founder)).Some?
      ensures link.OrganizationFounderRow? && link.org == org && link.founder == founder
    {
      var found := FindOne(store, OrganizationFounderKey(org, founder));
      if found.Some? {
        return found.value, true;
      }
      return OrganizationFounderRow(org, founder, "", Share(None, None, None, None)), false;
    }

    method GetManagers(raws: seq<RawManager>, org: string) returns (e: Option<Error>)
      modifies this`pending, this`persons
      ensures (e, State()) == ManagersSpec(config, store, old(State()), org, raws)
    {
      var i := 0;
      while i < |raws|
        invariant 0 <= i <= |raws|
        invariant ManagersSpec(config, store, old(State()), org, raws[..i]) == (None, State())
      {
        var raw := raws[i];
        assert raws[..i + 1][..i] == raws[..i];
        var holder := Identify(raw.managerType in config.managerPhysicalTypes, raw.managerType == config.managerLegal,
                               raw.inn, raw.fio, raw.hid, raw.name);
        if holder.Raised? {
          ManagersStopAtError(config, store, old(State()), org, raws, i + 1);
          return Some(holder.error);
        }
        var manager := FindOne(store, ManagerKey(holder.value));
        var link, existing := GetOrganizationManager(holder.value, org);
        var row := link.(post := raw.post, managerType := raw.managerType);
        if existing {
          QueueUpdate(row);
        } else {
          QueueInsert(row);
        }
        if manager.None? {
          QueueInsert(ManagerRow(holder.value));
        }
        i := i + 1;
      }
      assert raws[..i] == raws;
      return None;
    }

    method GetOrganizationManager(manager: Holder, org: string) returns (link: Row, existing: bool)
      ensures existing == Lookup(store, OrganizationManagerKey(org, manager)).Some?
      ensures link.OrganizationManagerRow? && link.org == org && link.manager == manager
    {
      var found := FindOne(store, OrganizationManagerKey(org, manager));
      if found.Some? {
        return found.value, true;
      }
      return OrganizationManagerRow(org, manager, "", ""), false;
    }

    // -------------------------------------------------------------------------
    // Okveds and authorities
    // -------------------------------------------------------------------------

    method GetOkveds(raws: seq<RawOkved>, org: string) returns (e: Option<Error>)
      modifies this`pending
      ensures (e, State()) == OkvedsSpec(store, old(State()), org, raws)
    {
      var i := 0;
      while i < |raws|
        invariant 0 <= i <= |raws|
        invariant OkvedsSpec(store, old(State()), org, raws[..i]) == (None, State())
      {
        var raw := raws[i];
        assert raws[..i + 1][..i] == raws[..i];
        if raw.code.None? {
          OkvedsStopAtError(store, old(State()), org, raws, i + 1);
          return Some(MissingIdentifier);
        }
        var code := raw.code.value;
        var okved := FindOne(store, OkvedKey(code));
        var link, existing := GetOrganizationOkved(code, org);
        var row := link.(isMain := raw.main);
        if existing {
          QueueUpdate(row);
        } else {
          QueueInsert(row);
        }
        if okved.None? {
          QueueInsert(OkvedRow(code, raw.name, raw.okvedType));
        }
        i := i + 1;
      }
      assert raws[..i] == raws;
      return None;
    }

    method GetOrganizationOkved(code: string, org: string) returns (link: Row, existing: bool)
      ensures existing == Lookup(store, OrganizationOkvedKey(org, code)).Some?
      ensures link.OrganizationOkvedRow? && link.org == org && link.code == code
    {
      var found := FindOne(store, OrganizationOkvedKey(org, code));
      if found.Some? {
        return found.value, true;
      }
      return OrganizationOkvedRow(org, code, false), false;
    }

    method GetAuthorities(raws: seq<RawAuthority>, org: string)
      modifies this`pending, this`authorities, this`organizationAuthorities
      ensures State() == AuthoritiesSpec(store, old(State()), org, raws)
    {
      var i := 0;
      while i < |raws|
        invariant 0 <= i <= |raws|
        invariant AuthoritiesSpec(store, old(State()), org, raws[..i]) == State()
      {
        assert raws[..i + 1][..i] == raws[..i];
        GetAuthority(raws[i], org);
        i := i + 1;
      }
      assert raws[..i] == raws;
    }

    /** One iteration of getAuthorities. */
    method GetAuthority(raw: RawAuthority, org: string)
      modifies this`pending, this`authorities, this`organizationAuthorities
      ensures State() == AuthoritySpec(store, old(State()), org, raw)
    {
      var index := AuthorityIndex(raw.code, raw.authorityType);
      var found := FindOne(store, AuthorityKey(raw.code, raw.authorityType));
      var stored := found.Some? && found.value.AuthorityRow?;
      var authority: Authority;
      if stored {
        authority := found.value.authority;
      } else {
        if index in authorities {
          authority := authorities[index];
        } else {
          authority := Authority(raw.code, raw.authorityType, raw.name, raw.address);
        }
        authorities := authorities[index := authority];
      }
      var link, linkStored := GetOrganizationAuthority(authority, raw.role, org);
      if !stored {
        QueueInsertOnce(AuthorityRow(authority));
      }
      if !linkStored {
        QueueInsertOnce(OrganizationAuthorityRow(link));
      }
    }

    method GetOrganizationAuthority(authority: Authority, role: string, org: string)
      returns (link: OrganizationAuthority, stored: bool)
      modifies this`organizationAuthorities
      ensures (link, stored, State()) == LinkSpec(store, old(State()), authority, role, org)
    {
      var index := LinkIndex(org, authority.code, role);
      if index in organizationAuthorities {
        return organizationAuthorities[index], false;
      }
      var found := FindOne(store, OrganizationAuthorityKey(org, authority.code, authority.authorityType, role));
      if found.Some? && found.value.OrganizationAuthorityRow? {
        return found.value.link, true;
      }
      link := OrganizationAuthority(org, authority, role);
      organizationAuthorities := organizationAuthorities[index := link];
      return link, false;
    }

    // -------------------------------------------------------------------------
    // Documents, licenses, smb, finance, address
    // -------------------------------------------------------------------------

    method GetDocuments(raws: seq<RawDocument>, org: string)
      modifies this`pending
      ensures State() == DocumentsSpec(config, store, old(State()), org, raws)
    {
      var i := 0;
      while i < |raws|
        invariant 0 <= i <= |raws|
        invariant DocumentsSpec(config, store, old(State()), org, raws[..i]) == State()
      {
        var raw := raws[i];
        assert raws[..i + 1][..i] == raws[..i];
        if raw.docType in config.documentTypes {
          var document := FindOne(store, DocumentKey(raw.series, raw.number, org));
          if document.None? {
            QueueInsert(DocumentOf(config, org, raw));
          }
        }
        i := i + 1;
      }
      assert raws[..i] == raws;
    }

    method GetLicenses(raws: seq<RawLicense>, org: string)
      modifies this`pending
      ensures State() == LicensesSpec(config, store, old(State()), org, raws)
    {
      var i := 0;
      while i < |raws|
        invariant 0 <= i <= |raws|
        invariant LicensesSpec(config, store, old(State()), org, raws[..i]) == State()
      {
        var raw := raws[i];
        assert raws[..i + 1][..i] == raws[..i];
        ghost var next := LicenseSpec(config, store, State(), org, raw);
        assert LicensesSpec(config, store, old(State()), org, raws[..i + 1]) == next;
        var license := FindOne(store, LicenseKey(raw.series, raw.number, org));
        if license.None? {
          QueueInsert(LicenseOf(config, org, raw));
        }
        assert State() == next;
        i := i + 1;
      }
      assert raws[..i] == raws;
    }

    method GetRegistrySmb(raw: Option<RawSmb>, org: string)
      modifies this`pending
      ensures State() == SmbSpec(config, store, old(State()), org, raw)
    {
      if raw.None? {
        return;
      }
      var smb := FindOne(store, RegistrySmbKey(raw.value.smbType, raw.value.category, org));
      if smb.None? {
        QueueInsert(RegistrySmbRow(org, raw.value.smbType, raw.value.category, config.parseDate(raw.value.issueDate)));
      }
    }

    method GetFinance(raw: Option<RawFinance>, org: string)
      modifies this`pending
      ensures State() == FinanceSpec(store, old(State()), org, raw)
    {
      if raw.None? {
        return;
      }
      var f := raw.value;
      var finance := FindOne(store, FinanceKey(f.income, f.expense, f.debt, f.penalty, org));
      if finance.Some? {
        return;
      }
      QueueInsert(FinanceRow(org, f.taxSystem, f.income, f.expense, f.debt, f.penalty));
    }

    method GetAddress(raw: Option<RawAddress>, org: string)
      modifies this`pending
      ensures State() == AddressSpec(store, old(State()), org, raw)
    {
      if raw.None? {
        return;
      }
      var a := raw.value;
      var address := FindOne(store, AddressKey(a.fiasId, org));
      if address.Some? {
        return;
      }
      var region := GetGeo(RegionLevel, a.region);
      var area := GetGeo(AreaLevel, a.area);
      var city := GetGeo(CityLevel, a.city);
      var settlement := GetGeo(SettlementLevel, a.settlement);
      var street := GetGeo(StreetLevel, a.street);
      QueueInsert(AddressRow(org, a.fiasId, a.details, region, area, city, settlement, street));
    }

    /** getRegion, getArea, getCity, getSettlement and getStreet, which differ only in the
        level they read and the repository they query. */
    method GetGeo(level: Level, raw: RawGeo) returns (r: Option<string>)
      modifies this`pending
      ensures (r, State()) == GeoSpec(store, old(State()), level, raw)
    {
      if IsEmpty(raw.fiasId) {
        return None;
      }
      var found := FindOne(store, GeoKey(level, raw.fiasId.value));
      if found.Some? && found.value.GeoRow? {
        return Some(found.value.geoFiasId);
      }
      QueueInsert(GeoRow(level, raw.fiasId.value, raw.name, raw.typeFull));
      return raw.fiasId;
    }
  }
}
