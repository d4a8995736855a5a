/** Entities of the organization registry, the payload that describes one organization,
    and the entity store the parser works against (DataParserService in example.php).

    The store stands in for Doctrine's entity manager. Committed rows live in a sequence;
    a repository lookup (find / findOneBy) returns the first committed row whose natural
    key matches. Writes are collected as changes and applied when the transaction commits. */
module Entities {

  datatype Option<T> = None | Some(value: T)

  /** What a run can raise. */
  datatype Error =
    | TypeError                    // null passed to a parameter declared `string` (strict_types=1)
    | MissingIdentifier            // a lookup by primary key with a null key
    | StoreFailure(reason: string) // raised by the store when the pending writes are flushed

  /** PHP's empty() on a nullable string: null, "" and "0" are all empty. */
  predicate IsEmpty(v: Option<string>) {
    v.None? || v.value == "" || v.value == "0"
  }

  /** The enum constants and the two external helpers the service uses:
      FounderTypesEnum::PHYSICAL / LEGAL, ManagerTypesEnum::PHYSICAL_TYPES / LEGAL,
      DocumentTypesEnum::ALL_TYPES, mb_strtolower and
      DataDateParser::parseTimestampMilliseconds. */
  datatype Config = Config(
    founderPhysical: string,
    founderLegal: string,
    managerPhysicalTypes: set<string>,
    managerLegal: string,
    documentTypes: set<string>,
    lower: string -> string,
    parseDate: string -> Option<int>)

  // ---------------------------------------------------------------------------
  // The payload (the `data` part of the message)
  // ---------------------------------------------------------------------------

  /** A person's name. `gender` and `source` go through mb_strtolower, so a null one (or a
      missing fio) is kept as None: under strict_types it is a TypeError there. */
  datatype Fio = Fio(
    surname: string, name: string, patronymic: string, gender: Option<string>, source: Option<string>)

  /** `share` of a founder; every part is read with `?? null`. */
  datatype Share = Share(
    shareType: Option<string>, shareValue: Option<string>,
    numerator: Option<string>, denominator: Option<string>)

  datatype RawFounder = RawFounder(
    founderType: string, fio: Fio, inn: Option<string>, hid: Option<string>,
    name: Option<string>, share: Share)

  datatype RawManager = RawManager(
    managerType: string, post: string, fio: Fio, inn: Option<string>, hid: Option<string>,
    name: Option<string>)

  /** One okved; a null `code` makes the repository's find() raise. */
  datatype RawOkved = RawOkved(code: Option<string>, name: string, okvedType: string, main: bool)

  /** One entry of the `authorities` object; `role` is its key. */
  datatype RawAuthority = RawAuthority(
    role: string, code: string, authorityType: string, name: string, address: string)

  /** One entry of the `documents` object (the `smb` entry is one of them too). */
  datatype RawDocument = RawDocument(
    docType: string, series: Option<string>, number: Option<string>,
    issueDate: string, issueAuthority: string)

  datatype RawSmb = RawSmb(smbType: string, category: string, issueDate: string)

  /** The amounts are matched by findOneBy as given, a null one with IS NULL. */
  datatype RawFinance = RawFinance(
    taxSystem: string, income: Option<int>, expense: Option<int>, debt: Option<int>, penalty: Option<int>)

  /** One geography level of an address: `<level>_fias_id`, `<level>`, `<level>_type_full`. */
  datatype RawGeo = RawGeo(fiasId: Option<string>, name: Option<string>, typeFull: Option<string>)

  /** The plain fields an Address copies from the payload. */
  datatype AddressDetails = AddressDetails(
    source: string, block: string, blockType: string, timezone: string,
    geoLat: string, geoLon: string, country: string, okato: string, oktmo: string,
    metro: string, house: string, houseType: string, flat: string, flatType: string)

  datatype RawAddress = RawAddress(
    fiasId: string, details: AddressDetails,
    region: RawGeo, area: RawGeo, city: RawGeo, settlement: RawGeo, street: RawGeo)

  datatype RawLicense = RawLicense(
    series: Option<string>, number: Option<string>, issueAuthority: string, issueDate: string,
    suspendAuthority: string, suspendDate: string, validFrom: string, validTo: string)

  /** The scalar organization fields fillOrganization copies (dates still raw). */
  datatype OrganizationCard = OrganizationCard(
    name: string, nameShort: string, nameWithOpf: string, nameShortWithOpf: string,
    nameLatin: string, orgType: string, branchType: string, branchCount: string,
    ogrn: string, ogrnDate: string, okpo: string, okved: string, okvedType: string,
    hid: string, kpp: string, address: string, addressUnrestricted: string,
    capitalValue: string, capitalType: string, status: string,
    opf: string, opfShort: string, opfType: string,
    actualityDate: string, registrationDate: string)

  /** The management block; a missing one reads as a null name and post. */
  datatype Management = Management(name: Option<string>, post: Option<string>)

  /** A missing list is the empty list; a missing smb, finance or address is None. */
  datatype Payload = Payload(
    inn: string, card: OrganizationCard, management: Management,
    founders: seq<RawFounder>, managers: seq<RawManager>, okveds: seq<RawOkved>,
    authorities: seq<RawAuthority>, documents: seq<RawDocument>, smb: Option<RawSmb>,
    finance: Option<RawFinance>, address: Option<RawAddress>, licenses: seq<RawLicense>)

  // ---------------------------------------------------------------------------
  // Entities and rows
  // ---------------------------------------------------------------------------

  datatype Organization = Organization(
    inn: string, card: OrganizationCard,
    ogrnDate: Option<int>, actualityDate: Option<int>, registrationDate: Option<int>,
    management: Management, managementInn: Option<string>)

  datatype Person = Person(
    inn: string, surname: string, name: string, patronymic: string, gender: string, source: Option<string>)

  datatype Authority = Authority(code: string, authorityType: string, name: string, address: string)

  datatype OrganizationAuthority = OrganizationAuthority(orgInn: string, authority: Authority, role: string)

  /** The identity triple of a Founder or Manager. A ForeignOrganization is identified by
      its hid, which also stands for its id here. */
  datatype Holder = Holder(personInn: Option<string>, orgInn: Option<string>, foreignOrgId: Option<string>)

  datatype Level = RegionLevel | AreaLevel | CityLevel | SettlementLevel | StreetLevel

  datatype Row =
    | OrganizationRow(organization: Organization)
    | PersonRow(person: Person)
    | AuthorityRow(authority: Authority)
    | OkvedRow(code: string, okvedName: string, okvedType: string)
    | FounderRow(founder: Holder)
    | ManagerRow(manager: Holder)
    | ForeignOrganizationRow(hid: string, foreignName: string)
    | OrganizationFounderRow(org: string, founder: Holder, founderType: string, share: Share)
    | OrganizationManagerRow(org: string, manager: Holder, post: string, managerType: string)
    | OrganizationOkvedRow(org: string, code: string, isMain: bool)
    | OrganizationAuthorityRow(link: OrganizationAuthority)
    | DocumentRow(org: string, docType: string, series: Option<string>, number: Option<string>,
                  issueDate: Option<int>, issueAuthority: string)
    | LicenseRow(org: string, series: Option<string>, number: Option<string>,
                 issueAuthority: string, issueDate: Option<int>, suspendAuthority: string,
                 suspendDate: Option<int>, validFrom: Option<int>, validTo: Option<int>)
    | RegistrySmbRow(org: string, smbType: string, category: string, issueDate: Option<int>)
    | FinanceRow(org: string, taxSystem: string, income: Option<int>, expense: Option<int>,
                 debt: Option<int>, penalty: Option<int>)
    | AddressRow(org: string, fiasId: string, details: AddressDetails,
                 region: Option<string>, area: Option<string>, city: Option<string>,
                 settlement: Option<string>, street: Option<string>)
    | GeoRow(level: Level, geoFiasId: string, geoName: Option<string>, geoType: Option<string>)

  /** The natural keys the repositories are queried by. */
  datatype Key =
    | OrganizationKey(inn: string)
    | PersonKey(inn: string)
    | AuthorityKey(code: string, authorityType: string)
    | OkvedKey(code: string)
    | FounderKey(holder: Holder)
    | ManagerKey(holder: Holder)
    | ForeignOrganizationKey(hid: string)
    | OrganizationFounderKey(org: string, holder: Holder)
    | OrganizationManagerKey(org: string, holder: Holder)
    | OrganizationOkvedKey(org: string, code: string)
    | OrganizationAuthorityKey(org: string, code: string, authorityType: string, role: string)
    | DocumentKey(series: Option<string>, number: Option<string>, org: string)
    | LicenseKey(series: Option<string>, number: Option<string>, org: string)
    | RegistrySmbKey(smbType: string, category: string, org: string)
    | FinanceKey(income: Option<int>, expense: Option<int>, debt: Option<int>, penalty: Option<int>, org: string)
    | AddressKey(fiasId: string, org: string)
    | GeoKey(level: Level, fiasId: string)

  function KeyOf(r: Row): Key {
    match r
    case OrganizationRow(o) => OrganizationKey(o.inn)
    case PersonRow(p) => PersonKey(p.inn)
    case AuthorityRow(a) => AuthorityKey(a.code, a.authorityType)
    case OkvedRow(code, _, _) => OkvedKey(code)
    case FounderRow(h) => FounderKey(h)
    case ManagerRow(h) => ManagerKey(h)
    case ForeignOrganizationRow(hid, _) => ForeignOrganizationKey(hid)
    case OrganizationFounderRow(org, h, _, _) => OrganizationFounderKey(org, h)
    case OrganizationManagerRow(org, h, _, _) => OrganizationManagerKey(org, h)
    case OrganizationOkvedRow(org, code, _) => OrganizationOkvedKey(org, code)
    case OrganizationAuthorityRow(l) =>
      OrganizationAuthorityKey(l.orgInn, l.authority.code, l.authority.authorityType, l.role)
    case DocumentRow(org, _, series, number, _, _) => DocumentKey(series, number, org)
    case LicenseRow(org, series, number, _, _, _, _, _, _) => LicenseKey(series, number, org)
    case RegistrySmbRow(org, t, c, _) => RegistrySmbKey(t, c, org)
    case FinanceRow(org, _, i, e, d, p) => FinanceKey(i, e, d, p, org)
    case AddressRow(org, fias, _, _, _, _, _, _) => AddressKey(fias, org)
    case GeoRow(level, fias, _, _) => GeoKey(level, fias)
  }

  /** The organization a key is scoped to, for the kinds that belong to one organization. */
  function ScopeOf(k: Key): Option<string> {
    match k
    case OrganizationFounderKey(org, _) => Some(org)
    case OrganizationManagerKey(org, _) => Some(org)
    case OrganizationOkvedKey(org, _) => Some(org)
    case OrganizationAuthorityKey(org, _, _, _) => Some(org)
    case DocumentKey(_, _, org) => Some(org)
    case LicenseKey(_, _, org) => Some(org)
    case RegistrySmbKey(_, _, org) => Some(org)
    case FinanceKey(_, _, _, _, org) => Some(org)
    case AddressKey(_, org) => Some(org)
    case _ => None
  }

  /** A pending write: a new row, or new field values for the row with the same key. */
  datatype Change = Insert(row: Row) | Update(row: Row)

  // ---------------------------------------------------------------------------
  // Lookups and commits
  // ---------------------------------------------------------------------------

  function Keys(rows: seq<Row>): set<Key> {
    set i | 0 <= i < |rows| :: KeyOf(rows[i])
  }

  /** The committed row a repository returns for a natural key. */
  function Lookup(rows: seq<Row>, key: Key): (r: Option<Row>)
    ensures r.Some? ==> r.value in rows && KeyOf(r.value) == key
    ensures r.None? <==> key !in Keys(rows)
  {
    if rows == [] then None
    else if KeyOf(rows[0]) == key then Some(rows[0])
    else
      var r := Lookup(rows[1..], key);
      assert Keys(rows) == Keys(rows[1..]) + {KeyOf(rows[0])} by {
        assert forall i :: 0 < i < |rows| ==> rows[i] == rows[1..][i - 1];
      }
      r
  }

  /** find / findOneBy: a scan over the committed rows. */
  method FindOne(rows: seq<Row>, key: Key) returns (r: Option<Row>)
    ensures r == Lookup(rows, key)
  {
    var i := 0;
    while i < |rows|
      invariant 0 <= i <= |rows|
      invariant Lookup(rows[i..], key) == Lookup(rows, key)
    {
      if KeyOf(rows[i]) == key {
        return Some(rows[i]);
      }
      assert rows[i..][1..] == rows[i + 1..];
      i := i + 1;
    }
    return None;
  }

  function ApplyChange(rows: seq<Row>, c: Change): seq<Row> {
    match c
    case Insert(row) => rows + [row]
    case Update(row) =>
      seq(|rows|, i requires 0 <= i < |rows| => if KeyOf(rows[i]) == KeyOf(row) then row else rows[i])
  }

  /** The committed rows after a transaction whose writes were `changes` commits. */
  function Apply(rows: seq<Row>, changes: seq<Change>): seq<Row>
    decreases |changes|
  {
    if changes == [] then rows else Apply(ApplyChange(rows, changes[0]), changes[1..])
  }

  function InsertedKeys(changes: seq<Change>): set<Key> {
    set i | 0 <= i < |changes| && changes[i].Insert? :: KeyOf(changes[i].row)
  }

  lemma ApplyInsertKeys(rows: seq<Row>, row: Row)
    ensures Keys(ApplyChange(rows, Insert(row))) == Keys(rows) + {KeyOf(row)}
  {
    var next := ApplyChange(rows, Insert(row));
    assert forall i :: 0 <= i < |rows| ==> next[i] == rows[i];
    assert next[|rows|] == row;
  }

  lemma ApplyUpdateKeys(rows: seq<Row>, row: Row)
    ensures Keys(ApplyChange(rows, Update(row))) == Keys(rows)
  {
    var next := ApplyChange(rows, Update(row));
    forall k | k in Keys(rows) ensures k in Keys(next) {
      var i :| 0 <= i < |rows| && KeyOf(rows[i]) == k;
      assert KeyOf(next[i]) == k;
    }
    forall k | k in Keys(next) ensures k in Keys(rows) {
      var i :| 0 <= i < |next| && KeyOf(next[i]) == k;
      assert KeyOf(rows[i]) == k;
    }
  }

  lemma InsertedKeysCons(changes: seq<Change>)
    requires changes != []
    ensures InsertedKeys(changes) ==
              InsertedKeys(changes[1..]) + (if changes[0].Insert? then {KeyOf(changes[0].row)} else {})
  {
    assert forall i :: 0 < i < |changes| ==> changes[i] == changes[1..][i - 1];
    forall k | k in InsertedKeys(changes[1..]) ensures k in InsertedKeys(changes) {
      var i :| 0 <= i < |changes[1..]| && changes[1..][i].Insert? && KeyOf(changes[1..][i].row) == k;
      assert changes[i + 1] == changes[1..][i];
    }
  }

  /** A commit loses no key and adds exactly the keys of the inserted rows. */
  lemma {:induction false} ApplyKeys(rows: seq<Row>, changes: seq<Change>)
    ensures Keys(Apply(rows, changes)) == Keys(rows) + InsertedKeys(changes)
    decreases |changes|
  {
    if changes != [] {
      var c := changes[0];
      var next := ApplyChange(rows, c);
      ApplyKeys(next, changes[1..]);
      if c.Insert? {
        ApplyInsertKeys(rows, c.row);
      } else {
        ApplyUpdateKeys(rows, c.row);
      }
      InsertedKeysCons(changes);
    }
  }

  /** Every organization-scoped row refers to an organization row that exists: what the
      database's foreign keys guarantee. */
  ghost predicate Integrity(rows: seq<Row>) {
    forall i :: 0 <= i < |rows| && ScopeOf(KeyOf(rows[i])).Some? ==>
      OrganizationKey(ScopeOf(KeyOf(rows[i])).value) in Keys(rows)
  }

  /** While an organization is not in the store, no lookup of a row scoped to it can hit:
      the "already there" branches for documents, licenses, smb, finance, the address and
      the link rows never fire while its graph is built. */
  lemma ScopedLookupMisses(rows: seq<Row>, inn: string, key: Key)
    requires Integrity(rows)
    requires Lookup(rows, OrganizationKey(inn)).None?
    requires ScopeOf(key) == Some(inn)
    ensures Lookup(rows, key).None?
  {
  }
}
