/** The bookkeeping the three caches of DataParserService exist for: within one run a
    Person is inserted at most once per inn, an Authority at most once per "code_type"
    index and an OrganizationAuthority at most once per "inn_code_role" index; and the
    caches only ever grow during a run, which is why a failed run leaves them behind. */
module Tracking {
  import opened Entities
  import opened Resolution

  /** The cache slot an insert is accounted to. */
  datatype Slot = PersonSlot(inn: string) | AuthoritySlot(index: string) | LinkSlot(index: string)

  function SlotOf(c: Change): Option<Slot> {
    match c
    case Insert(PersonRow(p)) => Some(PersonSlot(p.inn))
    case Insert(AuthorityRow(a)) => Some(AuthoritySlot(AuthorityIndex(a.code, a.authorityType)))
    case Insert(OrganizationAuthorityRow(l)) => Some(LinkSlot(LinkIndexOf(l)))
    case _ => None
  }

  /** The inserted entity is the one its cache holds. */
  ghost predicate Cached(st: RunState, c: Change) {
    match c
    case Insert(PersonRow(p)) => p.inn in st.persons && st.persons[p.inn] == p
    case Insert(AuthorityRow(a)) =>
      var index := AuthorityIndex(a.code, a.authorityType);
      index in st.authorities && st.authorities[index] == a
    case Insert(OrganizationAuthorityRow(l)) => LinkIndexOf(l) in st.links && st.links[LinkIndexOf(l)] == l
    case _ => true
  }

  /** No two pending inserts share a slot. */
  ghost predicate InsertsOnce(changes: seq<Change>) {
    forall i, j :: 0 <= i < j < |changes| && SlotOf(changes[i]).Some? ==> SlotOf(changes[i]) != SlotOf(changes[j])
  }

  /** Each cache entry sits under the index its own fields give. */
  ghost predicate Coherent(st: RunState) {
    && (forall inn :: inn in st.persons ==> st.persons[inn].inn == inn)
    && (forall index :: index in st.authorities ==>
          AuthorityIndex(st.authorities[index].code, st.authorities[index].authorityType) == index)
    && (forall index :: index in st.links ==> LinkIndexOf(st.links[index]) == index)
  }

  ghost predicate Tracked(st: RunState) {
    && Coherent(st)
    && InsertsOnce(st.changes)
    && (forall i :: 0 <= i < |st.changes| ==> Cached(st, st.changes[i]))
  }

  ghost predicate SubMap<K, V>(m: map<K, V>, m': map<K, V>) {
    forall k :: k in m ==> k in m' && m'[k] == m[k]
  }

  /** Pending writes are only appended, cache entries only added. */
  ghost predicate Extends(st: RunState, st': RunState) {
    && st.changes <= st'.changes
    && SubMap(st.persons, st'.persons)
    && SubMap(st.authorities, st'.authorities)
    && SubMap(st.links, st'.links)
  }

  ghost predicate Good(st: RunState, st': RunState) {
    Extends(st, st') && (Tracked(st) ==> Tracked(st'))
  }

  // ---------------------------------------------------------------------------
  // Primitive steps
  // ---------------------------------------------------------------------------

  lemma GoodRefl(st: RunState)
    ensures Good(st, st)
  {
  }

  lemma GoodTrans(a: RunState, b: RunState, c: RunState)
    requires Good(a, b) && Good(b, c)
    ensures Good(a, c)
  {
    assert a.changes <= c.changes by {
      assert a.changes == b.changes[..|a.changes|];
      assert b.changes == c.changes[..|b.changes|];
    }
  }

  lemma SameSlotSameRow(st: RunState, c1: Change, c2: Change)
    requires Cached(st, c1) && Cached(st, c2)
    requires SlotOf(c1).Some? && SlotOf(c1) == SlotOf(c2)
    requires Coherent(st)
    ensures c1 == c2
  {
  }

  /** Adding entries under fresh keys of a cache keeps every pending insert cached. */
  lemma CachedMonotone(st: RunState, st': RunState)
    requires Tracked(st)
    requires st'.changes == st.changes && Coherent(st')
    requires SubMap(st.persons, st'.persons) && SubMap(st.authorities, st'.authorities)
    requires SubMap(st.links, st'.links)
    ensures Tracked(st')
  {
    forall i | 0 <= i < |st'.changes| ensures Cached(st', st'.changes[i]) {
      assert Cached(st, st.changes[i]);
    }
  }

  lemma PersistPlain(st: RunState, row: Row)
    requires SlotOf(Insert(row)).None?
    ensures Good(st, Persist(st, row))
  {
    var st' := Persist(st, row);
    if Tracked(st) {
      forall i | 0 <= i < |st'.changes| ensures Cached(st', st'.changes[i]) {
        if i < |st.changes| {
          assert st'.changes[i] == st.changes[i];
          assert Cached(st, st.changes[i]);
        }
      }
      forall i, j | 0 <= i < j < |st'.changes| && SlotOf(st'.changes[i]).Some?
        ensures SlotOf(st'.changes[i]) != SlotOf(st'.changes[j])
      {
        if j < |st.changes| {
          assert st'.changes[i] == st.changes[i] && st'.changes[j] == st.changes[j];
        }
      }
    }
  }

  lemma TouchGood(st: RunState, row: Row)
    ensures Good(st, Touch(st, row))
  {
    var st' := Touch(st, row);
    if Tracked(st) {
      forall i | 0 <= i < |st'.changes| ensures Cached(st', st'.changes[i]) {
        if i < |st.changes| {
          assert st'.changes[i] == st.changes[i];
          assert Cached(st, st.changes[i]);
        }
      }
      forall i, j | 0 <= i < j < |st'.changes| && SlotOf(st'.changes[i]).Some?
        ensures SlotOf(st'.changes[i]) != SlotOf(st'.changes[j])
      {
        if j < |st.changes| {
          assert st'.changes[i] == st.changes[i] && st'.changes[j] == st.changes[j];
        }
      }
    }
  }

  /** persist() of the entity a cache holds: a second insert for its slot cannot arise. */
  lemma PersistCached(st: RunState, row: Row)
    requires Tracked(st)
    requires SlotOf(Insert(row)).Some? && Cached(st, Insert(row))
    ensures Good(st, PersistOnce(st, row))
  {
    if Insert(row) !in st.changes {
      var st' := Persist(st, row);
      var n := |st.changes|;
      forall i | 0 <= i < |st'.changes| ensures Cached(st', st'.changes[i]) {
        if i < n {
          assert st'.changes[i] == st.changes[i];
          assert Cached(st, st.changes[i]);
        }
      }
      forall i, j | 0 <= i < j < |st'.changes| && SlotOf(st'.changes[i]).Some?
        ensures SlotOf(st'.changes[i]) != SlotOf(st'.changes[j])
      {
        assert st'.changes[i] == st.changes[i];
        if j < n {
          assert st'.changes[j] == st.changes[j];
        } else if SlotOf(st.changes[i]) == SlotOf(Insert(row)) {
          assert Cached(st, st.changes[i]);
          SameSlotSameRow(st, st.changes[i], Insert(row));
          assert false;
        }
      }
    }
  }

  /** Puts `v` in the authority cache under its own index, keeping what was there. */
  lemma CacheAuthority(st: RunState, index: string, a: Authority)
    requires Tracked(st)
    requires AuthorityIndex(a.code, a.authorityType) == index
    requires index in st.authorities ==> st.authorities[index] == a
    ensures Good(st, st.(authorities := st.authorities[index := a]))
  {
    CachedMonotone(st, st.(authorities := st.authorities[index := a]));
  }

  // ---------------------------------------------------------------------------
  // Resolvers
  // ---------------------------------------------------------------------------

  /** A stored person is cached under its inn. */
  lemma CachePerson(st: RunState, key: string, p: Person)
    requires key !in st.persons && p.inn == key
    ensures Good(st, st.(persons := st.persons[key := p]))
  {
    if Tracked(st) {
      CachedMonotone(st, st.(persons := st.persons[key := p]));
    }
  }

  /** A new person is persisted and cached: no insert for its inn was pending. */
  lemma InsertPerson(st: RunState, p: Person)
    requires p.inn !in st.persons
    ensures Good(st, Persist(st, PersonRow(p)).(persons := st.persons[p.inn := p]))
  {
    var st1 := st.(persons := st.persons[p.inn := p]);
    if Tracked(st) {
      CachedMonotone(st, st1);
      forall i | 0 <= i < |st.changes| ensures st.changes[i] != Insert(PersonRow(p)) {
        assert Cached(st, st.changes[i]);
      }
      PersistCached(st1, PersonRow(p));
      assert PersistOnce(st1, PersonRow(p)) == Persist(st, PersonRow(p)).(persons := st1.persons);
    } else {
      assert st.changes <= st1.changes + [Insert(PersonRow(p))];
    }
  }

  lemma PersonGood(cfg: Config, store: seq<Row>, st: RunState, inn: Option<string>, fio: Fio)
    ensures Good(st, PersonSpec(cfg, store, st, inn, fio).1)
  {
    if inn.Some? && inn.value !in st.persons {
      var key := inn.value;
      var found := Lookup(store, PersonKey(key));
      if found.Some? && found.value.PersonRow? {
        CachePerson(st, key, found.value.person);
      } else if fio.gender.None? {
        GoodRefl(st);
      } else {
        var p := Person(key, fio.surname, fio.name, fio.patronymic, cfg.lower(fio.gender.value), fio.source);
        InsertPerson(st, p);
        assert PersonSpec(cfg, store, st, inn, fio).1 == Persist(st, PersonRow(p)).(persons := st.persons[p.inn := p]);
      }
    } else {
      GoodRefl(st);
    }
  }

  lemma ForeignOrganizationGood(store: seq<Row>, st: RunState, hid: Option<string>, name: Option<string>)
    ensures Good(st, ForeignOrganizationSpec(store, st, hid, name).1)
  {
    if hid.Some? && name.Some? {
      PersistPlain(st, ForeignOrganizationRow(hid.value, name.value));
    }
  }

  lemma IdentifyGood(cfg: Config, store: seq<Row>, st: RunState, physical: bool, legal: bool,
                     inn: Option<string>, fio: Fio, hid: Option<string>, name: Option<string>)
    ensures Good(st, IdentifySpec(cfg, store, st, physical, legal, inn, fio, hid, name).1)
  {
    if physical {
      var (p, st1) := PersonSpec(cfg, store, st, inn, fio);
      PersonGood(cfg, store, st, inn, fio);
      if p.Ok? {
        var personInn := Some(p.value.inn);
        if IsEmpty(personInn) {
          ForeignOrganizationGood(store, st1, hid, Some(FullName(fio)));
          GoodTrans(st, st1, ForeignOrganizationSpec(store, st1, hid, Some(FullName(fio))).1);
        }
      }
    } else if legal {
      if IsEmpty(inn) {
        ForeignOrganizationGood(store, st, hid, name);
      } else {
        GoodRefl(st);
      }
    } else {
      ForeignOrganizationGood(store, st, hid, None);
    }
  }

  /** The tail both founders and managers share: the link row, then the holder row. */
  lemma LinkAndHolderGood(store: seq<Row>, st1: RunState, linkKey: Key, link: Row, holderKey: Key, holder: Row)
    requires SlotOf(Insert(link)).None? && SlotOf(Insert(holder)).None?
    ensures
      var st2 := if Lookup(store, linkKey).Some? then Touch(st1, link) else Persist(st1, link);
      Good(st1, if Lookup(store, holderKey).Some? then st2 else Persist(st2, holder))
  {
    var st2 := if Lookup(store, linkKey).Some? then Touch(st1, link) else Persist(st1, link);
    if Lookup(store, linkKey).Some? { TouchGood(st1, link); } else { PersistPlain(st1, link); }
    if Lookup(store, holderKey).None? {
      PersistPlain(st2, holder);
      GoodTrans(st1, st2, Persist(st2, holder));
    }
  }

  lemma FounderGood(cfg: Config, store: seq<Row>, st: RunState, org: string, raw: RawFounder)
    ensures Good(st, FounderSpec(cfg, store, st, org, raw).1)
  {
    var physical := raw.founderType == cfg.founderPhysical;
    var legal := raw.founderType == cfg.founderLegal;
    var (h, st1) := IdentifySpec(cfg, store, st, physical, legal, raw.inn, raw.fio, raw.hid, raw.name);
    IdentifyGood(cfg, store, st, physical, legal, raw.inn, raw.fio, raw.hid, raw.name);
    if h.Ok? {
      var link := OrganizationFounderRow(org, h.value, raw.founderType, raw.share);
      LinkAndHolderGood(store, st1, OrganizationFounderKey(org, h.value), link, FounderKey(h.value), FounderRow(h.value));
      GoodTrans(st, st1, FounderSpec(cfg, store, st, org, raw).1);
    }
  }

  lemma {:induction false} FoundersGood(cfg: Config, store: seq<Row>, st: RunState, org: string, raws: seq<RawFounder>)
    ensures Good(st, FoundersSpec(cfg, store, st, org, raws).1)
    decreases |raws|
  {
    if raws == [] {
      GoodRefl(st);
    } else {
      var (e, st1) := FoundersSpec(cfg, store, st, org, raws[..|raws| - 1]);
      FoundersGood(cfg, store, st, org, raws[..|raws| - 1]);
      if e.None? {
        FounderGood(cfg, store, st1, org, raws[|raws| - 1]);
        GoodTrans(st, st1, FounderSpec(cfg, store, st1, org, raws[|raws| - 1]).1);
      }
    }
  }

  lemma ManagerGood(cfg: Config, store: seq<Row>, st: RunState, org: string, raw: RawManager)
    ensures Good(st, ManagerSpec(cfg, store, st, org, raw).1)
  {
    var physical := raw.managerType in cfg.managerPhysicalTypes;
    var legal := raw.managerType == cfg.managerLegal;
    var (h, st1) := IdentifySpec(cfg, store, st, physical, legal, raw.inn, raw.fio, raw.hid, raw.name);
    IdentifyGood(cfg, store, st, physical, legal, raw.inn, raw.fio, raw.hid, raw.name);
    if h.Ok? {
      var link := OrganizationManagerRow(org, h.value, raw.post, raw.managerType);
      LinkAndHolderGood(store, st1, OrganizationManagerKey(org, h.value), link, ManagerKey(h.value), ManagerRow(h.value));
      GoodTrans(st, st1, ManagerSpec(cfg, store, st, org, raw).1);
    }
  }

  lemma {:induction false} ManagersGood(cfg: Config, store: seq<Row>, st: RunState, org: string, raws: seq<RawManager>)
    ensures Good(st, ManagersSpec(cfg, store, st, org, raws).1)
    decreases |raws|
  {
    if raws == [] {
      GoodRefl(st);
    } else {
      var (e, st1) := ManagersSpec(cfg, store, st, org, raws[..|raws| - 1]);
      ManagersGood(cfg, store, st, org, raws[..|raws| - 1]);
      if e.None? {
        ManagerGood(cfg, store, st1, org, raws[|raws| - 1]);
        GoodTrans(st, st1, ManagerSpec(cfg, store, st1, org, raws[|raws| - 1]).1);
      }
    }
  }

  lemma OkvedGood(store: seq<Row>, st: RunState, org: string, raw: RawOkved)
    ensures Good(st, OkvedSpec(store, st, org, raw).1)
  {
    if raw.code.None? {
      GoodRefl(st);
    } else {
      var code := raw.code.value;
      LinkAndHolderGood(store, st, OrganizationOkvedKey(org, code), OrganizationOkvedRow(org, code, raw.main),
                        OkvedKey(code), OkvedRow(code, raw.name, raw.okvedType));
    }
  }

  lemma {:induction false} OkvedsGood(store: seq<Row>, st: RunState, org: string, raws: seq<RawOkved>)
    ensures Good(st, OkvedsSpec(store, st, org, raws).1)
    decreases |raws|
  {
    if raws == [] {
      GoodRefl(st);
    } else {
      var (e, st1) := OkvedsSpec(store, st, org, raws[..|raws| - 1]);
      OkvedsGood(store, st, org, raws[..|raws| - 1]);
      if e.None? {
        OkvedGood(store, st1, org, raws[|raws| - 1]);
        GoodTrans(st, st1, OkvedSpec(store, st1, org, raws[|raws| - 1]).1);
      }
    }
  }

  /** getOrganizationAuthority: a link it did not take from the store is the one the link
      cache holds under the link's own index. */
  lemma LinkSpecGood(store: seq<Row>, st: RunState, a: Authority, role: string, org: string)
    ensures
      var (l, stored, st1) := LinkSpec(store, st, a, role, org);
      && Good(st, st1)
      && st1.changes == st.changes && st1.authorities == st.authorities
      && (Coherent(st) && !stored ==> LinkIndexOf(l) in st1.links && st1.links[LinkIndexOf(l)] == l)
  {
    var (l, stored, st1) := LinkSpec(store, st, a, role, org);
    var index := LinkIndex(org, a.code, role);
    if index !in st.links && !stored && Tracked(st) {
      CachedMonotone(st, st1);
    }
  }

  /** getOrganizationAuthority followed by persist($organizationAuthority). */
  lemma LinkGood(store: seq<Row>, st: RunState, a: Authority, role: string, org: string)
    ensures
      var (l, stored, st1) := LinkSpec(store, st, a, role, org);
      Good(st, PersistLink(st1, l, stored))
  {
    var (l, stored, st1) := LinkSpec(store, st, a, role, org);
    LinkSpecGood(store, st, a, role, org);
    PersistLinkGood(st1, l, stored);
    GoodTrans(st, st1, PersistLink(st1, l, stored));
  }

  lemma PersistLinkGood(st: RunState, l: OrganizationAuthority, stored: bool)
    requires Tracked(st) && !stored ==> LinkIndexOf(l) in st.links && st.links[LinkIndexOf(l)] == l
    ensures Good(st, PersistLink(st, l, stored))
  {
    if stored {
      GoodRefl(st);
    } else if Tracked(st) {
      PersistCached(st, OrganizationAuthorityRow(l));
    } else if Insert(OrganizationAuthorityRow(l)) !in st.changes {
      assert st.changes <= Persist(st, OrganizationAuthorityRow(l)).changes;
    }
  }

  /** An authority that is not stored: the cached or new one is (re)cached, the link is
      resolved, then both are persisted. */
  lemma NewAuthorityGood(store: seq<Row>, st: RunState, org: string, raw: RawAuthority, index: string, a: Authority)
    requires index == AuthorityIndex(raw.code, raw.authorityType)
    requires a == if index in st.authorities then st.authorities[index]
                  else Authority(raw.code, raw.authorityType, raw.name, raw.address)
    ensures
      var st1 := st.(authorities := st.authorities[index := a]);
      var (l, stored, st2) := LinkSpec(store, st1, a, raw.role, org);
      Good(st, PersistLink(PersistOnce(st2, AuthorityRow(a)), l, stored))
  {
    var st1 := st.(authorities := st.authorities[index := a]);
    var (l, stored, st2) := LinkSpec(store, st1, a, raw.role, org);
    var st3 := PersistOnce(st2, AuthorityRow(a));
    LinkSpecGood(store, st1, a, raw.role, org);
    if Tracked(st) {
      CacheAuthority(st, index, a);
      GoodTrans(st, st1, st2);
      PersistCached(st2, AuthorityRow(a));
      GoodTrans(st, st2, st3);
    } else {
      ExtendsTrans(st, st1, st2);
      if Insert(AuthorityRow(a)) !in st2.changes {
        assert st2.changes <= st3.changes;
      }
      ExtendsTrans(st, st2, st3);
    }
    PersistLinkGood(st3, l, stored);
    GoodTrans(st, st3, PersistLink(st3, l, stored));
  }

  lemma AuthorityGood(store: seq<Row>, st: RunState, org: string, raw: RawAuthority)
    ensures Good(st, AuthoritySpec(store, st, org, raw))
  {
    var found := Lookup(store, AuthorityKey(raw.code, raw.authorityType));
    if found.Some? && found.value.AuthorityRow? {
      LinkGood(store, st, found.value.authority, raw.role, org);
    } else {
      var index := AuthorityIndex(raw.code, raw.authorityType);
      var a := if index in st.authorities then st.authorities[index]
               else Authority(raw.code, raw.authorityType, raw.name, raw.address);
      NewAuthorityGood(store, st, org, raw, index, a);
    }
  }

  lemma ExtendsTrans(a: RunState, b: RunState, c: RunState)
    requires Extends(a, b) && Extends(b, c)
    ensures Extends(a, c)
  {
    assert a.changes == b.changes[..|a.changes|];
    assert b.changes == c.changes[..|b.changes|];
  }
  lemma {:induction false} AuthoritiesGood(store: seq<Row>, st: RunState, org: string, raws: seq<RawAuthority>)
    ensures Good(st, AuthoritiesSpec(store, st, org, raws))
    decreases |raws|
  {
    if raws == [] {
      GoodRefl(st);
    } else {
      var st1 := AuthoritiesSpec(store, st, org, raws[..|raws| - 1]);
      AuthoritiesGood(store, st, org, raws[..|raws| - 1]);
      AuthorityGood(store, st1, org, raws[|raws| - 1]);
      GoodTrans(st, st1, AuthoritySpec(store, st1, org, raws[|raws| - 1]));
    }
  }

  lemma {:induction false} DocumentsGood(cfg: Config, store: seq<Row>, st: RunState, org: string, raws: seq<RawDocument>)
    ensures Good(st, DocumentsSpec(cfg, store, st, org, raws))
    decreases |raws|
  {
    if raws == [] {
      GoodRefl(st);
    } else {
      var st1 := DocumentsSpec(cfg, store, st, org, raws[..|raws| - 1]);
      DocumentsGood(cfg, store, st, org, raws[..|raws| - 1]);
      PersistPlain(st1, DocumentOf(cfg, org, raws[|raws| - 1]));
      GoodRefl(st1);
      GoodTrans(st, st1, DocumentSpec(cfg, store, st1, org, raws[|raws| - 1]));
    }
  }

  lemma {:induction false} LicensesGood(cfg: Config, store: seq<Row>, st: RunState, org: string, raws: seq<RawLicense>)
    ensures Good(st, LicensesSpec(cfg, store, st, org, raws))
    decreases |raws|
  {
    if raws == [] {
      GoodRefl(st);
    } else {
      var st1 := LicensesSpec(cfg, store, st, org, raws[..|raws| - 1]);
      LicensesGood(cfg, store, st, org, raws[..|raws| - 1]);
      PersistPlain(st1, LicenseOf(cfg, org, raws[|raws| - 1]));
      GoodRefl(st1);
      GoodTrans(st, st1, LicenseSpec(cfg, store, st1, org, raws[|raws| - 1]));
    }
  }

  lemma GeoGood(store: seq<Row>, st: RunState, level: Level, raw: RawGeo)
    ensures Good(st, GeoSpec(store, st, level, raw).1)
  {
    if !IsEmpty(raw.fiasId) {
      PersistPlain(st, GeoRow(level, raw.fiasId.value, raw.name, raw.typeFull));
    }
    GoodRefl(st);
  }

  lemma AddressGood(store: seq<Row>, st: RunState, org: string, raw: Option<RawAddress>)
    ensures Good(st, AddressSpec(store, st, org, raw))
  {
    GoodRefl(st);
    if raw.Some? && Lookup(store, AddressKey(raw.value.fiasId, org)).None? {
      var a := raw.value;
      var (region, st1) := GeoSpec(store, st, RegionLevel, a.region);
      var (area, st2) := GeoSpec(store, st1, AreaLevel, a.area);
      var (city, st3) := GeoSpec(store, st2, CityLevel, a.city);
      var (settlement, st4) := GeoSpec(store, st3, SettlementLevel, a.settlement);
      var (street, st5) := GeoSpec(store, st4, StreetLevel, a.street);
      GeoGood(store, st, RegionLevel, a.region);
      GeoGood(store, st1, AreaLevel, a.area);
      GeoGood(store, st2, CityLevel, a.city);
      GeoGood(store, st3, SettlementLevel, a.settlement);
      GeoGood(store, st4, StreetLevel, a.street);
      GoodTrans(st, st1, st2);
      GoodTrans(st, st2, st3);
      GoodTrans(st, st3, st4);
      GoodTrans(st, st4, st5);
      var row := AddressRow(org, a.fiasId, a.details, region, area, city, settlement, street);
      PersistPlain(st5, row);
      GoodTrans(st, st5, Persist(st5, row));
    }
  }

  lemma SmbGood(cfg: Config, store: seq<Row>, st: RunState, org: string, raw: Option<RawSmb>)
    ensures Good(st, SmbSpec(cfg, store, st, org, raw))
  {
    GoodRefl(st);
    if raw.Some? {
      PersistPlain(st, RegistrySmbRow(org, raw.value.smbType, raw.value.category, cfg.parseDate(raw.value.issueDate)));
    }
  }

  lemma FinanceGood(store: seq<Row>, st: RunState, org: string, raw: Option<RawFinance>)
    ensures Good(st, FinanceSpec(store, st, org, raw))
  {
    GoodRefl(st);
    if raw.Some? {
      var f := raw.value;
      PersistPlain(st, FinanceRow(org, f.taxSystem, f.income, f.expense, f.debt, f.penalty));
    }
  }

  lemma RecordsGood(cfg: Config, store: seq<Row>, st: RunState, data: Payload)
    ensures Good(st, RecordsSpec(cfg, store, st, data).1)
  {
    var (e4, st4) := OkvedsSpec(store, st, data.inn, data.okveds);
    OkvedsGood(store, st, data.inn, data.okveds);
    if e4.None? {
      RestGood(cfg, store, st4, data);
      GoodTrans(st, st4, RestSpec(cfg, store, st4, data));
    }
  }

  lemma RestGood(cfg: Config, store: seq<Row>, st4: RunState, data: Payload)
    ensures Good(st4, RestSpec(cfg, store, st4, data))
  {
    var org := data.inn;
    var st5 := AuthoritiesSpec(store, st4, org, data.authorities);
    var st6 := DocumentsSpec(cfg, store, st5, org, data.documents);
    var st7 := SmbSpec(cfg, store, st6, org, data.smb);
    var st8 := FinanceSpec(store, st7, org, data.finance);
    var st9 := AddressSpec(store, st8, org, data.address);
    var st10 := LicensesSpec(cfg, store, st9, org, data.licenses);
    AuthoritiesGood(store, st4, org, data.authorities);
    DocumentsGood(cfg, store, st5, org, data.documents);
    SmbGood(cfg, store, st6, org, data.smb);
    FinanceGood(store, st7, org, data.finance);
    AddressGood(store, st8, org, data.address);
    LicensesGood(cfg, store, st9, org, data.licenses);
    GoodTrans(st4, st5, st6);
    GoodTrans(st4, st6, st7);
    GoodTrans(st4, st7, st8);
    GoodTrans(st4, st8, st9);
    GoodTrans(st4, st9, st10);
  }

  /** Everything a run queues extends the organization insert it starts with, and keeps
      each cached entity inserted at most once. */
  lemma BuildGood(cfg: Config, store: seq<Row>, st: RunState, data: Payload, managementInn: Option<string>)
    requires ManagementInn(cfg, data.managers, data.management.name) == Ok(managementInn)
    ensures Good(Persist(st, OrganizationRow(OrganizationOf(cfg, data, managementInn))), BuildSpec(cfg, store, st, data).1)
  {
    var org := data.inn;
    var st1 := Persist(st, OrganizationRow(OrganizationOf(cfg, data, managementInn)));
    var (e2, st2) := FoundersSpec(cfg, store, st1, org, data.founders);
    FoundersGood(cfg, store, st1, org, data.founders);
    if e2.None? {
      var (e3, st3) := ManagersSpec(cfg, store, st2, org, data.managers);
      ManagersGood(cfg, store, st2, org, data.managers);
      GoodTrans(st1, st2, st3);
      if e3.None? {
        RecordsGood(cfg, store, st3, data);
        GoodTrans(st1, st3, RecordsSpec(cfg, store, st3, data).1);
      }
    }
  }

  /** A TypeError in the managementInn scan ends the run before anything is queued;
      otherwise the organization row is the first write a run queues. */
  lemma OrganizationFirst(cfg: Config, store: seq<Row>, st: RunState, data: Payload)
    ensures Good(st, BuildSpec(cfg, store, st, data).1)
    ensures var mi := ManagementInn(cfg, data.managers, data.management.name);
      var built := BuildSpec(cfg, store, st, data);
      && (mi.Raised? ==> built == (Some(TypeError), st))
      && (mi.Ok? ==>
            |built.1.changes| > |st.changes|
            && built.1.changes[|st.changes|] == Insert(OrganizationRow(OrganizationOf(cfg, data, mi.value))))
  {
    var mi := ManagementInn(cfg, data.managers, data.management.name);
    if mi.Ok? {
      var row := OrganizationRow(OrganizationOf(cfg, data, mi.value));
      var st1 := Persist(st, row);
      PersistPlain(st, row);
      BuildGood(cfg, store, st, data, mi.value);
      GoodTrans(st, st1, BuildSpec(cfg, store, st, data).1);
      assert st1.changes <= BuildSpec(cfg, store, st, data).1.changes;
    } else {
      GoodRefl(st);
    }
  }
}
