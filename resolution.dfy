/** What one run of DataParserService (example.php) does, as functions of the committed
    store and of the run's state: the writes queued in the unit of work and the three
    run-scoped caches. The service class in service.dfy is proved against these. */
module Resolution {
  import opened Entities

  /** The unit of work's pending writes and the caches $persons, $authorities and
      $organizationAuthorities. */
  datatype RunState = RunState(
    changes: seq<Change>,
    persons: map<string, Person>,
    authorities: map<string, Authority>,
    links: map<string, OrganizationAuthority>)

  datatype Outcome<T> = Ok(value: T) | Raised(error: Error)

  /** persist() of a new entity. */
  function Persist(st: RunState, row: Row): RunState {
    st.(changes := st.changes + [Insert(row)])
  }

  /** persist() of an entity this unit of work may already track: a second persist of the
      same new entity is a no-op. Doctrine recognises the entity by object identity; this
      model recognises it by value. The two agree here because PersistOnce is used only for
      new authorities and new authority links, which come out of a cache: a row equal to
      one already queued comes from the same cache slot and so is the same object. */
  function PersistOnce(st: RunState, row: Row): RunState {
    if Insert(row) in st.changes then st else Persist(st, row)
  }

  /** New field values on a managed entity, written at flush. */
  function Touch(st: RunState, row: Row): RunState {
    st.(changes := st.changes + [Update(row)])
  }

  /** sprintf('%s_%s', code, type) */
  function AuthorityIndex(code: string, authorityType: string): string {
    code + "_" + authorityType
  }

  /** sprintf('%s_%s_%s', inn, authority code, role) */
  function LinkIndex(inn: string, code: string, role: string): string {
    inn + "_" + code + "_" + role
  }

  function LinkIndexOf(l: OrganizationAuthority): string {
    LinkIndex(l.orgInn, l.authority.code, l.role)
  }

  /** sprintf('%s %s %s', surname, name, patronymic) */
  function FullName(fio: Fio): string {
    fio.surname + " " + fio.name + " " + fio.patronymic
  }

  // ---------------------------------------------------------------------------
  // Persons, foreign organizations and role holders
  // ---------------------------------------------------------------------------

  /** getPerson: the lookup by a null inn raises; a cached person is returned as is; a
      stored one is cached; otherwise a new Person is created, persisted and cached, and a
      null gender makes mb_strtolower raise before anything is persisted. */
  function PersonSpec(cfg: Config, store: seq<Row>, st: RunState, inn: Option<string>, fio: Fio)
    : (Outcome<Person>, RunState)
  {
    if inn.None? then (Raised(MissingIdentifier), st)
    else if inn.value in st.persons then (Ok(st.persons[inn.value]), st)
    else match Lookup(store, PersonKey(inn.value))
      case Some(PersonRow(p)) => (Ok(p), st.(persons := st.persons[inn.value := p]))
      case _ =>
        if fio.gender.None? then (Raised(TypeError), st)
        else
          var p := Person(inn.value, fio.surname, fio.name, fio.patronymic, cfg.lower(fio.gender.value), fio.source);
          (Ok(p), Persist(st, PersonRow(p)).(persons := st.persons[inn.value := p]))
  }

  /** getForeignOrganization(string $hid, string $name): a null argument is a TypeError. */
  function ForeignOrganizationSpec(store: seq<Row>, st: RunState, hid: Option<string>, name: Option<string>)
    : (Outcome<string>, RunState)
  {
    if hid.None? || name.None? then (Raised(TypeError), st)
    else match Lookup(store, ForeignOrganizationKey(hid.value))
      case Some(ForeignOrganizationRow(h, _)) => (Ok(h), st)
      case _ => (Ok(hid.value), Persist(st, ForeignOrganizationRow(hid.value, name.value)))
  }

  /** Completes the triple: a foreign organization only when both inns are empty. */
  function HolderSpec(store: seq<Row>, st: RunState, personInn: Option<string>, orgInn: Option<string>,
                      hid: Option<string>, displayName: Option<string>): (Outcome<Holder>, RunState)
  {
    if IsEmpty(personInn) && IsEmpty(orgInn) then
      var (fo, st1) := ForeignOrganizationSpec(store, st, hid, displayName);
      if fo.Raised? then (Raised(fo.error), st1)
      else (Ok(Holder(personInn, orgInn, Some(fo.value))), st1)
    else (Ok(Holder(personInn, orgInn, None)), st)
  }

  /** The identity triple of a founder or manager, shared by getFounders and getManagers. */
  function IdentifySpec(cfg: Config, store: seq<Row>, st: RunState, physical: bool, legal: bool,
                        inn: Option<string>, fio: Fio, hid: Option<string>, name: Option<string>)
    : (Outcome<Holder>, RunState)
  {
    if physical then
      var (p, st1) := PersonSpec(cfg, store, st, inn, fio);
      if p.Raised? then (Raised(p.error), st1)
      else HolderSpec(store, st1, Some(p.value.inn), None, hid, Some(FullName(fio)))
    else if legal then HolderSpec(store, st, None, inn, hid, name)
    else HolderSpec(store, st, None, None, hid, None)
  }

  /** One founder: the triple, the OrganizationFounder link (updated when stored, else new)
      and the Founder itself when the store has none with that triple. */
  function FounderSpec(cfg: Config, store: seq<Row>, st: RunState, org: string, raw: RawFounder)
    : (Option<Error>, RunState)
  {
    var (h, st1) := IdentifySpec(cfg, store, st, raw.founderType == cfg.founderPhysical,
                                 raw.founderType == cfg.founderLegal, raw.inn, raw.fio, raw.hid, raw.name);
    if h.Raised? then (Some(h.error), st1)
    else
      var link := OrganizationFounderRow(org, h.value, raw.founderType, raw.share);
      var st2 := if Lookup(store, OrganizationFounderKey(org, h.value)).Some? then Touch(st1, link)
                 else Persist(st1, link);
      (None, if Lookup(store, FounderKey(h.value)).Some? then st2 else Persist(st2, FounderRow(h.value)))
  }

  function FoundersSpec(cfg: Config, store: seq<Row>, st: RunState, org: string, raws: seq<RawFounder>)
    : (Option<Error>, RunState)
    decreases |raws|
  {
    if raws == [] then (None, st)
    else
      var (e, st1) := FoundersSpec(cfg, store, st, org, raws[..|raws| - 1]);
      if e.Some? then (e, st1) else FounderSpec(cfg, store, st1, org, raws[|raws| - 1])
  }

  /** An exception ends the founders loop: what follows the failing founder is not visited. */
  lemma {:induction false} FoundersStopAtError(cfg: Config, store: seq<Row>, st: RunState, org: string,
                                               raws: seq<RawFounder>, i: nat)
    requires i <= |raws|
    requires FoundersSpec(cfg, store, st, org, raws[..i]).0.Some?
    ensures FoundersSpec(cfg, store, st, org, raws) == FoundersSpec(cfg, store, st, org, raws[..i])
    decreases |raws| - i
  {
    if i < |raws| {
      var init := raws[..|raws| - 1];
      assert init[..i] == raws[..i];
      FoundersStopAtError(cfg, store, st, org, init, i);
    } else {
      assert raws[..i] == raws;
    }
  }

  /** An exception from the founders loop is the first founder's that raises: the founders
      before it all went through, and the loop's result is that founder's outcome. */
  lemma {:induction false} FoundersFirstError(cfg: Config, store: seq<Row>, st: RunState, org: string,
                                              raws: seq<RawFounder>)
    ensures var r := FoundersSpec(cfg, store, st, org, raws);
      r.0.Some? ==>
        exists k :: 0 <= k < |raws| && FoundersSpec(cfg, store, st, org, raws[..k]).0.None?
                    && FounderSpec(cfg, store, FoundersSpec(cfg, store, st, org, raws[..k]).1, org, raws[k]) == r
    decreases |raws|
  {
    if raws != [] {
      var init := raws[..|raws| - 1];
      var r1 := FoundersSpec(cfg, store, st, org, init);
      FoundersFirstError(cfg, store, st, org, init);
      if r1.0.Some? {
        var k :| 0 <= k < |init| && FoundersSpec(cfg, store, st, org, init[..k]).0.None?
                 && FounderSpec(cfg, store, FoundersSpec(cfg, store, st, org, init[..k]).1, org, init[k]) == r1;
        assert init[..k] == raws[..k] && init[k] == raws[k];
      } else {
        assert raws[..|raws| - 1] == init;
      }
    }
  }

  /** One manager: as for founders, with the physical types as a set. */
  function ManagerSpec(cfg: Config, store: seq<Row>, st: RunState, org: string, raw: RawManager)
    : (Option<Error>, RunState)
  {
    var (h, st1) := IdentifySpec(cfg, store, st, raw.managerType in cfg.managerPhysicalTypes,
                                 raw.managerType == cfg.managerLegal, raw.inn, raw.fio, raw.hid, raw.name);
    if h.Raised? then (Some(h.error), st1)
    else
      var link := OrganizationManagerRow(org, h.value, raw.post, raw.managerType);
      var st2 := if Lookup(store, OrganizationManagerKey(org, h.value)).Some? then Touch(st1, link)
                 else Persist(st1, link);
      (None, if Lookup(store, ManagerKey(h.value)).Some? then st2 else Persist(st2, ManagerRow(h.value)))
  }

  function ManagersSpec(cfg: Config, store: seq<Row>, st: RunState, org: string, raws: seq<RawManager>)
    : (Option<Error>, RunState)
    decreases |raws|
  {
    if raws == [] then (None, st)
    else
      var (e, st1) := ManagersSpec(cfg, store, st, org, raws[..|raws| - 1]);
      if e.Some? then (e, st1) else ManagerSpec(cfg, store, st1, org, raws[|raws| - 1])
  }

  lemma {:induction false} ManagersStopAtError(cfg: Config, store: seq<Row>, st: RunState, org: string,
                                               raws: seq<RawManager>, i: nat)
    requires i <= |raws|
    requires ManagersSpec(cfg, store, st, org, raws[..i]).0.Some?
    ensures ManagersSpec(cfg, store, st, org, raws) == ManagersSpec(cfg, store, st, org, raws[..i])
    decreases |raws| - i
  {
    if i < |raws| {
      var init := raws[..|raws| - 1];
      assert init[..i] == raws[..i];
      ManagersStopAtError(cfg, store, st, org, init, i);
    } else {
      assert raws[..i] == raws;
    }
  }

  /** An exception from the managers loop is the first manager's that raises. */
  lemma {:induction false} ManagersFirstError(cfg: Config, store: seq<Row>, st: RunState, org: string,
                                              raws: seq<RawManager>)
    ensures var r := ManagersSpec(cfg, store, st, org, raws);
      r.0.Some? ==>
        exists k :: 0 <= k < |raws| && ManagersSpec(cfg, store, st, org, raws[..k]).0.None?
                    && ManagerSpec(cfg, store, ManagersSpec(cfg, store, st, org, raws[..k]).1, org, raws[k]) == r
    decreases |raws|
  {
    if raws != [] {
      var init := raws[..|raws| - 1];
      var r1 := ManagersSpec(cfg, store, st, org, init);
      ManagersFirstError(cfg, store, st, org, init);
      if r1.0.Some? {
        var k :| 0 <= k < |init| && ManagersSpec(cfg, store, st, org, init[..k]).0.None?
                 && ManagerSpec(cfg, store, ManagersSpec(cfg, store, st, org, init[..k]).1, org, init[k]) == r1;
        assert init[..k] == raws[..k] && init[k] == raws[k];
      } else {
        assert raws[..|raws| - 1] == init;
      }
    }
  }

  // ---------------------------------------------------------------------------
  // Okveds and authorities
  // ---------------------------------------------------------------------------

  /** One okved: find() by a null code raises; otherwise the OrganizationOkved link is
      updated when stored, else new, and the Okved is inserted when the store has none. */
  function OkvedSpec(store: seq<Row>, st: RunState, org: string, raw: RawOkved): (Option<Error>, RunState) {
    if raw.code.None? then (Some(MissingIdentifier), st)
    else
      var code := raw.code.value;
      var link := OrganizationOkvedRow(org, code, raw.main);
      var st1 := if Lookup(store, OrganizationOkvedKey(org, code)).Some? then Touch(st, link)
                 else Persist(st, link);
      (None, if Lookup(store, OkvedKey(code)).Some? then st1 else Persist(st1, OkvedRow(code, raw.name, raw.okvedType)))
  }

  function OkvedsSpec(store: seq<Row>, st: RunState, org: string, raws: seq<RawOkved>): (Option<Error>, RunState)
    decreases |raws|
  {
    if raws == [] then (None, st)
    else
      var (e, st1) := OkvedsSpec(store, st, org, raws[..|raws| - 1]);
      if e.Some? then (e, st1) else OkvedSpec(store, st1, org, raws[|raws| - 1])
  }

  lemma {:induction false} OkvedsStopAtError(store: seq<Row>, st: RunState, org: string, raws: seq<RawOkved>, i: nat)
    requires i <= |raws|
    requires OkvedsSpec(store, st, org, raws[..i]).0.Some?
    ensures OkvedsSpec(store, st, org, raws) == OkvedsSpec(store, st, org, raws[..i])
    decreases |raws| - i
  {
    if i < |raws| {
      var init := raws[..|raws| - 1];
      assert init[..i] == raws[..i];
      OkvedsStopAtError(store, st, org, init, i);
    } else {
      assert raws[..i] == raws;
    }
  }

  /** getOrganizationAuthority: the cache first, then the store (a stored link is not cached),
      else a new link, cached. The flag says whether the link came from the store. */
  function LinkSpec(store: seq<Row>, st: RunState, a: Authority, role: string, org: string)
    : (OrganizationAuthority, bool, RunState)
  {
    var index := LinkIndex(org, a.code, role);
    if index in st.links then (st.links[index], false, st)
    else match Lookup(store, OrganizationAuthorityKey(org, a.code, a.authorityType, role))
      case Some(OrganizationAuthorityRow(l)) => (l, true, st)
      case _ =>
        var l := OrganizationAuthority(org, a, role);
        (l, false, st.(links := st.links[index := l]))
  }

  /** persist($organizationAuthority): a no-op for a stored link. */
  function PersistLink(st: RunState, l: OrganizationAuthority, stored: bool): RunState {
    if stored then st else PersistOnce(st, OrganizationAuthorityRow(l))
  }

  /** One entry of `authorities`: a stored authority is used and not cached; otherwise the
      cached one for "code_type", or a new one, is (re)cached; then the link. */
  function AuthoritySpec(store: seq<Row>, st: RunState, org: string, raw: RawAuthority): RunState {
    match Lookup(store, AuthorityKey(raw.code, raw.authorityType))
    case Some(AuthorityRow(a)) =>
      var (l, stored, st1) := LinkSpec(store, st, a, raw.role, org);
      PersistLink(st1, l, stored)
    case _ =>
      var index := AuthorityIndex(raw.code, raw.authorityType);
      var a := if index in st.authorities then st.authorities[index]
               else Authority(raw.code, raw.authorityType, raw.name, raw.address);
      var st1 := st.(authorities := st.authorities[index := a]);
      var (l, stored, st2) := LinkSpec(store, st1, a, raw.role, org);
      PersistLink(PersistOnce(st2, AuthorityRow(a)), l, stored)
  }

  function AuthoritiesSpec(store: seq<Row>, st: RunState, org: string, raws: seq<RawAuthority>): RunState
    decreases |raws|
  {
    if raws == [] then st
    else AuthoritySpec(store, AuthoritiesSpec(store, st, org, raws[..|raws| - 1]), org, raws[|raws| - 1])
  }

  // ---------------------------------------------------------------------------
  // Documents, licenses, smb, finance, address
  // ---------------------------------------------------------------------------

  function DocumentOf(cfg: Config, org: string, raw: RawDocument): Row {
    DocumentRow(org, raw.docType, raw.series, raw.number, cfg.parseDate(raw.issueDate), raw.issueAuthority)
  }

  /** A document of a type outside ALL_TYPES is skipped; a stored one is left untouched. */
  function DocumentSpec(cfg: Config, store: seq<Row>, st: RunState, org: string, raw: RawDocument): RunState {
    if raw.docType !in cfg.documentTypes then st
    else if Lookup(store, DocumentKey(raw.series, raw.number, org)).Some? then st
    else Persist(st, DocumentOf(cfg, org, raw))
  }

  function DocumentsSpec(cfg: Config, store: seq<Row>, st: RunState, org: string, raws: seq<RawDocument>): RunState
    decreases |raws|
  {
    if raws == [] then st
    else DocumentSpec(cfg, store, DocumentsSpec(cfg, store, st, org, raws[..|raws| - 1]), org, raws[|raws| - 1])
  }

  function LicenseOf(cfg: Config, org: string, raw: RawLicense): Row {
    LicenseRow(org, raw.series, raw.number, raw.issueAuthority, cfg.parseDate(raw.issueDate),
               raw.suspendAuthority, cfg.parseDate(raw.suspendDate),
               cfg.parseDate(raw.validFrom), cfg.parseDate(raw.validTo))
  }

  function LicenseSpec(cfg: Config, store: seq<Row>, st: RunState, org: string, raw: RawLicense): RunState {
    if Lookup(store, LicenseKey(raw.series, raw.number, org)).Some? then st
    else Persist(st, LicenseOf(cfg, org, raw))
  }

  function LicensesSpec(cfg: Config, store: seq<Row>, st: RunState, org: string, raws: seq<RawLicense>): RunState
    decreases |raws|
  {
    if raws == [] then st
    else LicenseSpec(cfg, store, LicensesSpec(cfg, store, st, org, raws[..|raws| - 1]), org, raws[|raws| - 1])
  }

  function SmbSpec(cfg: Config, store: seq<Row>, st: RunState, org: string, raw: Option<RawSmb>): RunState {
    if raw.None? then st
    else if Lookup(store, RegistrySmbKey(raw.value.smbType, raw.value.category, org)).Some? then st
    else Persist(st, RegistrySmbRow(org, raw.value.smbType, raw.value.category, cfg.parseDate(raw.value.issueDate)))
  }

  function FinanceSpec(store: seq<Row>, st: RunState, org: string, raw: Option<RawFinance>): RunState {
    if raw.None? then st
    else
      var f := raw.value;
      if Lookup(store, FinanceKey(f.income, f.expense, f.debt, f.penalty, org)).Some? then st
      else Persist(st, FinanceRow(org, f.taxSystem, f.income, f.expense, f.debt, f.penalty))
  }

  /** getRegion / getArea / getCity / getSettlement / getStreet: the fias id of the level,
      or None when it is empty. */
  function GeoSpec(store: seq<Row>, st: RunState, level: Level, raw: RawGeo): (Option<string>, RunState) {
    if IsEmpty(raw.fiasId) then (None, st)
    else match Lookup(store, GeoKey(level, raw.fiasId.value))
      case Some(GeoRow(_, fias, _, _)) => (Some(fias), st)
      case _ => (Some(raw.fiasId.value), Persist(st, GeoRow(level, raw.fiasId.value, raw.name, raw.typeFull)))
  }

  function AddressSpec(store: seq<Row>, st: RunState, org: string, raw: Option<RawAddress>): RunState {
    if raw.None? then st
    else
      var a := raw.value;
      if Lookup(store, AddressKey(a.fiasId, org)).Some? then st
      else
        var (region, st1) := GeoSpec(store, st, RegionLevel, a.region);
        var (area, st2) := GeoSpec(store, st1, AreaLevel, a.area);
        var (city, st3) := GeoSpec(store, st2, CityLevel, a.city);
        var (settlement, st4) := GeoSpec(store, st3, SettlementLevel, a.settlement);
        var (street, st5) := GeoSpec(store, st4, StreetLevel, a.street);
        Persist(st5, AddressRow(org, a.fiasId, a.details, region, area, city, settlement, street))
  }

  // ---------------------------------------------------------------------------
  // The organization and the whole run
  // ---------------------------------------------------------------------------

  /** fillOrganization lowercases the manager's fio source and the management name before
      it tests the inn, so both must be non-null for the scan to go past a manager. */
  predicate Lowerable(m: RawManager, managementName: Option<string>) {
    m.fio.source.Some? && managementName.Some?
  }

  /** The manager the management block names: a non-empty inn and the same name once
      lowercased. */
  predicate Names(cfg: Config, m: RawManager, managementName: Option<string>) {
    && Lowerable(m, managementName)
    && !IsEmpty(m.inn)
    && cfg.lower(m.fio.source.value) == cfg.lower(managementName.value)
  }

  /** A manager the scan looks at and goes past. */
  predicate Passes(cfg: Config, m: RawManager, managementName: Option<string>) {
    Lowerable(m, managementName) && !Names(cfg, m, managementName)
  }

  /** managementInn: the inn of the first manager the management block names, or null when
      the scan goes past every manager; the scan raises a TypeError at the first manager it
      cannot lowercase. */
  function ManagementInn(cfg: Config, managers: seq<RawManager>, managementName: Option<string>)
    : (r: Outcome<Option<string>>)
    ensures r == Ok(None) <==> forall k :: 0 <= k < |managers| ==> Passes(cfg, managers[k], managementName)
    ensures r.Ok? && r.value.Some? ==>
              exists k :: 0 <= k < |managers| && Names(cfg, managers[k], managementName)
                && r.value == managers[k].inn
                && forall j :: 0 <= j < k ==> Passes(cfg, managers[j], managementName)
    ensures r.Raised? ==>
              && r.error == TypeError
              && exists k :: 0 <= k < |managers| && !Lowerable(managers[k], managementName)
                   && forall j :: 0 <= j < k ==> Passes(cfg, managers[j], managementName)
  {
    if managers == [] then Ok(None)
    else if !Lowerable(managers[0], managementName) then Raised(TypeError)
    else if Names(cfg, managers[0], managementName) then Ok(managers[0].inn)
    else
      var r := ManagementInn(cfg, managers[1..], managementName);
      assert forall k :: 0 < k < |managers| ==> managers[k] == managers[1..][k - 1];
      if r.Ok? && r.value.Some? then
        var k :| 0 <= k < |managers[1..]| && Names(cfg, managers[1..][k], managementName)
                 && r.value == managers[1..][k].inn
                 && forall j :: 0 <= j < k ==> Passes(cfg, managers[1..][j], managementName);
        assert Names(cfg, managers[k + 1], managementName) && r.value == managers[k + 1].inn;
        r
      else if r.Raised? then
        var k :| 0 <= k < |managers[1..]| && !Lowerable(managers[1..][k], managementName)
                 && forall j :: 0 <= j < k ==> Passes(cfg, managers[1..][j], managementName);
        assert !Lowerable(managers[k + 1], managementName);
        r
      else r
  }

  function OrganizationOf(cfg: Config, data: Payload, managementInn: Option<string>): Organization {
    Organization(data.inn, data.card, cfg.parseDate(data.card.ogrnDate),
                 cfg.parseDate(data.card.actualityDate), cfg.parseDate(data.card.registrationDate),
                 data.management, managementInn)
  }

  /** Everything create() queues inside its transaction, up to the first exception. The
      managementInn scan runs before the organization is persisted. */
  function BuildSpec(cfg: Config, store: seq<Row>, st: RunState, data: Payload): (Option<Error>, RunState) {
    var org := data.inn;
    var mi := ManagementInn(cfg, data.managers, data.management.name);
    if mi.Raised? then (Some(mi.error), st)
    else
      var st1 := Persist(st, OrganizationRow(OrganizationOf(cfg, data, mi.value)));
      var (e2, st2) := FoundersSpec(cfg, store, st1, org, data.founders);
      if e2.Some? then (e2, st2)
      else
        var (e3, st3) := ManagersSpec(cfg, store, st2, org, data.managers);
        if e3.Some? then (e3, st3) else RecordsSpec(cfg, store, st3, data)
  }

  /** The steps of create() after the managers: the okveds, which raise on a null code, then
      the rest. */
  function RecordsSpec(cfg: Config, store: seq<Row>, st: RunState, data: Payload): (Option<Error>, RunState) {
    var (e4, st4) := OkvedsSpec(store, st, data.inn, data.okveds);
    if e4.Some? then (e4, st4) else (None, RestSpec(cfg, store, st4, data))
  }

  /** The steps after the okveds. Their lookups are findOneBy queries, which take null
      values, and find() calls guarded by an empty() test, so none of them raises. */
  function RestSpec(cfg: Config, store: seq<Row>, st4: RunState, data: Payload): RunState {
    var org := data.inn;
    var st5 := AuthoritiesSpec(store, st4, org, data.authorities);
    var st6 := DocumentsSpec(cfg, store, st5, org, data.documents);
    var st7 := SmbSpec(cfg, store, st6, org, data.smb);
    var st8 := FinanceSpec(store, st7, org, data.finance);
    var st9 := AddressSpec(store, st8, org, data.address);
    LicensesSpec(cfg, store, st9, org, data.licenses)
  }

  function Cleared(): RunState {
    RunState([], map[], map[], map[])
  }

  datatype ParseResult = ParseResult(raised: Option<Error>, store: seq<Row>, after: RunState)

  /** parse(): an organization already stored is left alone (update is empty) and the caches
      are cleared. Otherwise create() runs; on any exception the transaction is rolled back,
      the unit of work is cleared and clear() is skipped, so the caches keep what the failed
      run put in them. `flushError` is what the store raises at flush, if anything. */
  function ParseSpec(cfg: Config, store: seq<Row>, st: RunState, data: Payload, flushError: Option<Error>): ParseResult {
    if Lookup(store, OrganizationKey(data.inn)).Some? then ParseResult(None, store, Cleared())
    else
      var (e, st1) := BuildSpec(cfg, store, st, data);
      if e.Some? then ParseResult(e, store, st1.(changes := []))
      else if flushError.Some? then ParseResult(flushError, store, st1.(changes := []))
      else ParseResult(None, Apply(store, st1.changes), Cleared())
  }
}
