/** Properties of a DataParserService run, stated over the functions of resolution.dfy. */
module RunProperties {
  import opened Entities
  import opened Resolution
  import opened Tracking

  // ---------------------------------------------------------------------------
  // The run as a whole
  // ---------------------------------------------------------------------------

  /** parse() of an organization already in the store writes nothing and clears the caches. */
  lemma ExistingOrganizationUntouched(cfg: Config, store: seq<Row>, st: RunState, data: Payload,
                                      flushError: Option<Error>)
    requires Lookup(store, OrganizationKey(data.inn)).Some?
    ensures ParseSpec(cfg, store, st, data, flushError) == ParseResult(None, store, Cleared())
  {
  }

  /** A run that raises leaves the store as it was and drops its pending writes, but the
      caches keep every entry they had and everything the failed run added: clear() only
      runs on a normal return. A run that returns normally leaves the caches empty. */
  lemma FailedRunKeepsCaches(cfg: Config, store: seq<Row>, st: RunState, data: Payload, flushError: Option<Error>)
    ensures var r := ParseSpec(cfg, store, st, data, flushError);
      && (r.raised.Some? ==>
            && r.store == store && r.after.changes == []
            && SubMap(st.persons, r.after.persons)
            && SubMap(st.authorities, r.after.authorities)
            && SubMap(st.links, r.after.links))
      && (r.raised.None? ==> r.after == Cleared())
  {
    if Lookup(store, OrganizationKey(data.inn)).None? {
      OrganizationFirst(cfg, store, st, data);
    }
  }

  /** create() is all or nothing: on an exception the store is unchanged; on a normal
      return exactly the keys of the queued inserts are added, the organization's among
      them. The exception is the first one raised: by a resolver, else by the flush. */
  lemma CreateAllOrNothing(cfg: Config, store: seq<Row>, st: RunState, data: Payload, flushError: Option<Error>)
    requires Lookup(store, OrganizationKey(data.inn)).None?
    ensures var r := ParseSpec(cfg, store, st, data, flushError);
      var built := BuildSpec(cfg, store, st, data);
      && r.raised == (if built.0.Some? then built.0 else flushError)
      && (r.raised.Some? ==> r.store == store)
      && (r.raised.None? ==>
            && Keys(r.store) == Keys(store) + InsertedKeys(built.1.changes)
            && OrganizationKey(data.inn) in Keys(r.store))
  {
    var built := BuildSpec(cfg, store, st, data);
    OrganizationFirst(cfg, store, st, data);
    ApplyKeys(store, built.1.changes);
    if built.0.None? {
      var k := |st.changes|;
      assert built.1.changes[k].Insert? && KeyOf(built.1.changes[k].row) == OrganizationKey(data.inn);
    }
  }

  /** Within one run a Person is queued for insertion at most once per inn, an Authority at
      most once per "code_type" index and an OrganizationAuthority at most once per
      "inn_code_role" index, whatever the caches held when the run began. */
  lemma RunInsertsCachedEntitiesOnce(cfg: Config, store: seq<Row>, st: RunState, data: Payload)
    requires st.changes == [] && Coherent(st)
    ensures var cs := BuildSpec(cfg, store, st, data).1.changes;
      && (forall i, j :: (0 <= i < j < |cs| && cs[i].Insert? && cs[i].row.PersonRow?
                          && cs[j].Insert? && cs[j].row.PersonRow?) ==>
            cs[i].row.person.inn != cs[j].row.person.inn)
      && (forall i, j :: (0 <= i < j < |cs| && cs[i].Insert? && cs[i].row.AuthorityRow?
                          && cs[j].Insert? && cs[j].row.AuthorityRow?) ==>
            AuthorityIndex(cs[i].row.authority.code, cs[i].row.authority.authorityType)
            != AuthorityIndex(cs[j].row.authority.code, cs[j].row.authority.authorityType))
      && (forall i, j :: (0 <= i < j < |cs| && cs[i].Insert? && cs[i].row.OrganizationAuthorityRow?
                          && cs[j].Insert? && cs[j].row.OrganizationAuthorityRow?) ==>
            LinkIndexOf(cs[i].row.link) != LinkIndexOf(cs[j].row.link))
  {
    OrganizationFirst(cfg, store, st, data);
    var cs := BuildSpec(cfg, store, st, data).1.changes;
    assert InsertsOnce(cs);
    forall i, j | 0 <= i < j < |cs| && SlotOf(cs[i]).Some? && SlotOf(cs[j]).Some?
      ensures SlotOf(cs[i]) != SlotOf(cs[j])
    {
    }
  }

  // ---------------------------------------------------------------------------
  // Persons and role holders
  // ---------------------------------------------------------------------------

  /** getPerson has to create a person whose fio has no gender: mb_strtolower(null). */
  predicate GenderMissing(store: seq<Row>, st: RunState, inn: Option<string>, fio: Fio) {
    && inn.Some? && inn.value !in st.persons
    && Lookup(store, PersonKey(inn.value)).None? && fio.gender.None?
  }

  /** getPerson raises: a null inn, or a new person without a gender. */
  predicate PersonRaises(store: seq<Row>, st: RunState, inn: Option<string>, fio: Fio) {
    inn.None? || GenderMissing(store, st, inn, fio)
  }

  /** getPerson: a null inn raises; a cache hit returns the cached person and persists
      nothing; a stored person is cached and persists nothing; otherwise a null gender
      raises a TypeError, and a person with the lowercased gender is cached and persisted. */
  lemma PersonResolution(cfg: Config, store: seq<Row>, st: RunState, inn: Option<string>, fio: Fio)
    requires Coherent(st)
    ensures var (p, st') := PersonSpec(cfg, store, st, inn, fio);
      && st'.authorities == st.authorities && st'.links == st.links
      && (inn.None? ==> p == Raised(MissingIdentifier) && st' == st)
      && (GenderMissing(store, st, inn, fio) ==> p == Raised(TypeError) && st' == st)
      && (inn.Some? && inn.value in st.persons ==> p == Ok(st.persons[inn.value]) && st' == st)
      && (!PersonRaises(store, st, inn, fio) ==> p.Ok? && p.value.inn == inn.value)
      && (inn.Some? && inn.value !in st.persons && !GenderMissing(store, st, inn, fio) ==>
            && st'.persons == st.persons[inn.value := p.value]
            && (Lookup(store, PersonKey(inn.value)).Some? ==> st'.changes == st.changes)
            && (Lookup(store, PersonKey(inn.value)).None? ==>
                  && st'.changes == st.changes + [Insert(PersonRow(p.value))]
                  && p.value == Person(inn.value, fio.surname, fio.name, fio.patronymic,
                                       cfg.lower(fio.gender.value), fio.source)))
  {
  }

  /** When the payload calls for a foreign organization: neither inn can be used. */
  predicate NeedsForeign(physical: bool, legal: bool, inn: Option<string>) {
    !(physical || legal) || IsEmpty(inn)
  }

  /** The identity triple of a founder or manager: a physical holder is keyed by its
      person's inn, a legal one by its own inn; the foreign-organization slot is filled, with
      the hid, exactly when both inns are empty. A null inn for a physical holder raises, and
      so does a new person without a gender, and a foreign organization without a hid or
      without a name. */
  lemma IdentityTriple(cfg: Config, store: seq<Row>, st: RunState, physical: bool, legal: bool,
                       inn: Option<string>, fio: Fio, hid: Option<string>, name: Option<string>)
    requires Coherent(st)
    ensures var (h, _) := IdentifySpec(cfg, store, st, physical, legal, inn, fio, hid, name);
      && (h == Raised(MissingIdentifier) <==> physical && inn.None?)
      && (h == Raised(TypeError) <==>
            || (physical && GenderMissing(store, st, inn, fio))
            || (&& !(physical && PersonRaises(store, st, inn, fio)) && NeedsForeign(physical, legal, inn)
                && (hid.None? || (!physical && (!legal || name.None?)))))
      && (h.Ok? && physical ==> h.value.personInn == inn && h.value.orgInn.None?)
      && (h.Ok? && !physical && legal ==> h.value.personInn.None? && h.value.orgInn == inn)
      && (h.Ok? ==> (h.value.foreignOrgId.Some? <==> NeedsForeign(physical, legal, inn)))
      && (h.Ok? && h.value.foreignOrgId.Some? ==> h.value.foreignOrgId == hid)
  {
    if physical {
      PersonResolution(cfg, store, st, inn, fio);
    }
  }

  /** A Founder row is queued exactly when the store has none with the triple, and the
      OrganizationFounder link is updated when stored and queued as new otherwise. */
  lemma FounderWrites(cfg: Config, store: seq<Row>, st: RunState, org: string, raw: RawFounder)
    ensures var (h, st1) := IdentifySpec(cfg, store, st, raw.founderType == cfg.founderPhysical,
                                         raw.founderType == cfg.founderLegal, raw.inn, raw.fio, raw.hid, raw.name);
      var (e, st') := FounderSpec(cfg, store, st, org, raw);
      && (h.Raised? ==> e == Some(h.error) && st' == st1)
      && (h.Ok? ==>
            var link := OrganizationFounderRow(org, h.value, raw.founderType, raw.share);
            && e.None?
            && st'.changes[..|st1.changes|] == st1.changes
            && |st'.changes| == |st1.changes| + (if Lookup(store, FounderKey(h.value)).Some? then 1 else 2)
            && st'.changes[|st1.changes|] ==
                 (if Lookup(store, OrganizationFounderKey(org, h.value)).Some? then Update(link) else Insert(link))
            && (Lookup(store, FounderKey(h.value)).None? ==>
                  st'.changes[|st1.changes| + 1] == Insert(FounderRow(h.value))))
  {
  }

  /** Nothing deduplicates Founder rows within one run: the same legal founder listed twice,
      against an empty store, queues two Founder inserts with the same triple. */
  lemma FounderRowsNotDeduplicated(cfg: Config, fio: Fio)
    requires cfg.founderLegal != cfg.founderPhysical
    ensures var raw := RawFounder(cfg.founderLegal, fio, Some("7701000000"), None, Some("Holding"),
                                  Share(None, None, None, None));
      var cs := FoundersSpec(cfg, [], Cleared(), "7702000000", [raw, raw]).1.changes;
      var h := Holder(None, Some("7701000000"), None);
      |cs| == 4 && cs[1] == Insert(FounderRow(h)) && cs[3] == Insert(FounderRow(h))
  {
    var raw := RawFounder(cfg.founderLegal, fio, Some("7701000000"), None, Some("Holding"),
                          Share(None, None, None, None));
    var org := "7702000000";
    var h := Holder(None, Some("7701000000"), None);
    var link := OrganizationFounderRow(org, h, cfg.founderLegal, raw.share);
    assert [raw, raw][..1] == [raw];
    assert [raw][..0] == [];
    assert !IsEmpty(Some("7701000000"));
    assert IdentifySpec(cfg, [], Cleared(), false, true, raw.inn, fio, None, Some("Holding")) == (Ok(h), Cleared());
    var st1 := FounderSpec(cfg, [], Cleared(), org, raw).1;
    assert st1.changes == [Insert(link), Insert(FounderRow(h))];
    assert FoundersSpec(cfg, [], Cleared(), org, [raw]) == (None, st1);
    assert IdentifySpec(cfg, [], st1, false, true, raw.inn, fio, None, Some("Holding")) == (Ok(h), st1);
    var st2 := FounderSpec(cfg, [], st1, org, raw).1;
    assert st2.changes == st1.changes + [Insert(link), Insert(FounderRow(h))];
  }

  /** The display name passed to getForeignOrganization: the full name for a physical
      holder, the payload's name for a legal one, and null otherwise. */
  function DisplayName(physical: bool, legal: bool, fio: Fio, name: Option<string>): Option<string> {
    if physical then Some(FullName(fio)) else if legal then name else None
  }

  /** When resolving a triple creates a foreign organization: both inns are empty, nothing
      raised before, the hid and the display name are present, and the store lacks the hid. */
  predicate CreatesForeign(store: seq<Row>, st: RunState, physical: bool, legal: bool, inn: Option<string>,
                           fio: Fio, hid: Option<string>, name: Option<string>)
  {
    && !(physical && PersonRaises(store, st, inn, fio)) && NeedsForeign(physical, legal, inn)
    && hid.Some? && DisplayName(physical, legal, fio, name).Some?
    && Lookup(store, ForeignOrganizationKey(hid.value)).None?
  }

  /** A ForeignOrganization is looked up or created only when both inns are empty: resolving
      a triple queues a ForeignOrganization exactly when `CreatesForeign` holds, and then it
      is the row for the hid and the display name. */
  lemma ForeignOrganizationWrites(cfg: Config, store: seq<Row>, st: RunState, physical: bool, legal: bool,
                                  inn: Option<string>, fio: Fio, hid: Option<string>, name: Option<string>)
    requires Coherent(st)
    ensures var st' := IdentifySpec(cfg, store, st, physical, legal, inn, fio, hid, name).1;
      && st.changes <= st'.changes
      && (CreatesForeign(store, st, physical, legal, inn, fio, hid, name) ==>
            st'.changes[|st'.changes| - 1] ==
              Insert(ForeignOrganizationRow(hid.value, DisplayName(physical, legal, fio, name).value)))
      && (forall k :: |st.changes| <= k < |st'.changes| && st'.changes[k].row.ForeignOrganizationRow? ==>
            && CreatesForeign(store, st, physical, legal, inn, fio, hid, name)
            && st'.changes[k] == Insert(ForeignOrganizationRow(hid.value, DisplayName(physical, legal, fio, name).value)))
  {
    var st1 := if physical then PersonSpec(cfg, store, st, inn, fio).1 else st;
    if physical {
      PersonResolution(cfg, store, st, inn, fio);
      forall k | |st.changes| <= k < |st1.changes| ensures !st1.changes[k].row.ForeignOrganizationRow? {
      }
    }
    var st' := IdentifySpec(cfg, store, st, physical, legal, inn, fio, hid, name).1;
    assert st.changes <= st1.changes;
    assert st1.changes <= st'.changes;
    forall k | |st.changes| <= k < |st'.changes| && st'.changes[k].row.ForeignOrganizationRow?
      ensures && CreatesForeign(store, st, physical, legal, inn, fio, hid, name)
              && st'.changes[k] == Insert(ForeignOrganizationRow(hid.value, DisplayName(physical, legal, fio, name).value))
    {
    }
  }

  /** The managers' counterpart of FounderWrites: the link is updated when stored and
      inserted otherwise, with the post and the type; a Manager row is inserted exactly when
      the store has none with the triple. */
  lemma ManagerWrites(cfg: Config, store: seq<Row>, st: RunState, org: string, raw: RawManager)
    ensures var (h, st1) := IdentifySpec(cfg, store, st, raw.managerType in cfg.managerPhysicalTypes,
                                         raw.managerType == cfg.managerLegal, raw.inn, raw.fio, raw.hid, raw.name);
      var (e, st') := ManagerSpec(cfg, store, st, org, raw);
      && (h.Raised? ==> e == Some(h.error) && st' == st1)
      && (h.Ok? ==>
            var link := OrganizationManagerRow(org, h.value, raw.post, raw.managerType);
            && e.None?
            && st'.changes[..|st1.changes|] == st1.changes
            && |st'.changes| == |st1.changes| + (if Lookup(store, ManagerKey(h.value)).Some? then 1 else 2)
            && st'.changes[|st1.changes|] ==
                 (if Lookup(store, OrganizationManagerKey(org, h.value)).Some? then Update(link) else Insert(link))
            && (Lookup(store, ManagerKey(h.value)).None? ==>
                  st'.changes[|st1.changes| + 1] == Insert(ManagerRow(h.value))))
  {
  }

  // ---------------------------------------------------------------------------
  // Okveds
  // ---------------------------------------------------------------------------

  /** One okved: a null code raises and writes nothing; otherwise the link is updated when
      stored and inserted otherwise, with its main flag, and an Okved row is inserted exactly
      when the store has none with the code. No cache changes. */
  lemma OkvedWrites(store: seq<Row>, st: RunState, org: string, raw: RawOkved)
    ensures var (e, st') := OkvedSpec(store, st, org, raw);
      && (raw.code.None? ==> e == Some(MissingIdentifier) && st' == st)
      && (raw.code.Some? ==>
            var code := raw.code.value;
            var link := OrganizationOkvedRow(org, code, raw.main);
            && e.None?
            && st'.persons == st.persons && st'.authorities == st.authorities && st'.links == st.links
            && st'.changes[..|st.changes|] == st.changes
            && |st'.changes| == |st.changes| + (if Lookup(store, OkvedKey(code)).Some? then 1 else 2)
            && st'.changes[|st.changes|] ==
                 (if Lookup(store, OrganizationOkvedKey(org, code)).Some? then Update(link) else Insert(link))
            && (Lookup(store, OkvedKey(code)).None? ==>
                  st'.changes[|st.changes| + 1] == Insert(OkvedRow(code, raw.name, raw.okvedType))))
  {
  }

  /** getOkveds raises exactly when some okved has a null code, and then with a missing
      identifier. */
  lemma {:induction false} OkvedsRaiseOnNullCode(store: seq<Row>, st: RunState, org: string, raws: seq<RawOkved>)
    ensures var e := OkvedsSpec(store, st, org, raws).0;
      && (e.Some? <==> exists k :: 0 <= k < |raws| && raws[k].code.None?)
      && (e.Some? ==> e == Some(MissingIdentifier))
    decreases |raws|
  {
    if raws != [] {
      var init := raws[..|raws| - 1];
      OkvedsRaiseOnNullCode(store, st, org, init);
      assert forall k :: 0 <= k < |init| ==> init[k] == raws[k];
      if exists k :: 0 <= k < |init| && init[k].code.None? {
        var k :| 0 <= k < |init| && init[k].code.None?;
        assert raws[k].code.None?;
      }
    }
  }

  // ---------------------------------------------------------------------------
  // Authorities
  // ---------------------------------------------------------------------------

  /** getAuthorities: a stored authority is used and neither cached nor re-inserted;
      otherwise the entry for "code_type" is kept if present, else a new authority is
      cached there; the only authority the step can queue is that cache entry. */
  lemma AuthorityResolution(store: seq<Row>, st: RunState, org: string, raw: RawAuthority)
    ensures var st' := AuthoritySpec(store, st, org, raw);
      var index := AuthorityIndex(raw.code, raw.authorityType);
      var found := Lookup(store, AuthorityKey(raw.code, raw.authorityType));
      var stored := found.Some? && found.value.AuthorityRow?;
      && st'.persons == st.persons
      && st.changes <= st'.changes
      && (stored ==> st'.authorities == st.authorities)
      && (!stored && index in st.authorities ==> st'.authorities == st.authorities)
      && (!stored && index !in st.authorities ==>
            st'.authorities == st.authorities[index := Authority(raw.code, raw.authorityType, raw.name, raw.address)])
      && (forall i :: |st.changes| <= i < |st'.changes| && st'.changes[i].Insert? && st'.changes[i].row.AuthorityRow? ==>
            !stored && st'.changes[i].row.authority == st'.authorities[index])
  {
    var found := Lookup(store, AuthorityKey(raw.code, raw.authorityType));
    if found.Some? && found.value.AuthorityRow? {
      var (l, isStored, st1) := LinkSpec(store, st, found.value.authority, raw.role, org);
      assert AuthoritySpec(store, st, org, raw) == PersistLink(st1, l, isStored);
      assert st1.changes == st.changes;
    } else {
      var index := AuthorityIndex(raw.code, raw.authorityType);
      var a := if index in st.authorities then st.authorities[index]
               else Authority(raw.code, raw.authorityType, raw.name, raw.address);
      NewAuthorityQueues(store, st, org, raw, index, a);
    }
  }

  lemma NewAuthorityQueues(store: seq<Row>, st: RunState, org: string, raw: RawAuthority, index: string, a: Authority)
    requires index == AuthorityIndex(raw.code, raw.authorityType)
    requires a == if index in st.authorities then st.authorities[index]
                  else Authority(raw.code, raw.authorityType, raw.name, raw.address)
    ensures
      var st1 := st.(authorities := st.authorities[index := a]);
      var (l, isStored, st2) := LinkSpec(store, st1, a, raw.role, org);
      var st' := PersistLink(PersistOnce(st2, AuthorityRow(a)), l, isStored);
      && st'.persons == st.persons
      && st.changes <= st'.changes
      && st'.authorities == st1.authorities
      && (forall i :: |st.changes| <= i < |st'.changes| && st'.changes[i].Insert? && st'.changes[i].row.AuthorityRow? ==>
            st'.changes[i].row.authority == a)
  {
    var st1 := st.(authorities := st.authorities[index := a]);
    var (l, isStored, st2) := LinkSpec(store, st1, a, raw.role, org);
    assert st2.changes == st.changes && st2.authorities == st1.authorities;
    var st3 := PersistOnce(st2, AuthorityRow(a));
    var st' := PersistLink(st3, l, isStored);
    assert st3.changes == st.changes || st3.changes == st.changes + [Insert(AuthorityRow(a))];
    assert st'.changes == st3.changes || st'.changes == st3.changes + [Insert(OrganizationAuthorityRow(l))];
    forall i | |st.changes| <= i < |st'.changes| && st'.changes[i].Insert? && st'.changes[i].row.AuthorityRow?
      ensures st'.changes[i].row.authority == a
    {
      if i < |st3.changes| {
        assert st'.changes[i] == st3.changes[i];
      }
    }
  }

  /** getOrganizationAuthority: the cache for "inn_code_role" is consulted before the
      store; a stored link is returned without being cached; only a new link is cached. */
  lemma LinkResolution(store: seq<Row>, st: RunState, a: Authority, role: string, org: string)
    ensures var (l, stored, st') := LinkSpec(store, st, a, role, org);
      var index := LinkIndex(org, a.code, role);
      && st'.changes == st.changes && st'.persons == st.persons && st'.authorities == st.authorities
      && (index in st.links ==> l == st.links[index] && !stored && st' == st)
      && (index !in st.links && stored ==>
            st' == st && Lookup(store, OrganizationAuthorityKey(org, a.code, a.authorityType, role)) == Some(OrganizationAuthorityRow(l)))
      && (index !in st.links && !stored ==>
            l == OrganizationAuthority(org, a, role) && st'.links == st.links[index := l])
  {
  }

  /** The "code_type" index is not injective: an authority (code "a_b", type "c") and an
      authority (code "a", type "b_c") share it, so in one run the second is never created
      and its role is linked to the first. */
  lemma AuthorityIndexCollision()
    ensures AuthorityIndex("a_b", "c") == AuthorityIndex("a", "b_c")
    ensures var first := RawAuthority("r1", "a_b", "c", "North", "Addr 1");
      var second := RawAuthority("r2", "a", "b_c", "South", "Addr 2");
      var st' := AuthoritiesSpec([], Cleared(), "7700", [first, second]);
      var a := Authority("a_b", "c", "North", "Addr 1");
      && st'.authorities == map["a_b_c" := a]
      && st'.changes == [Insert(AuthorityRow(a)), Insert(OrganizationAuthorityRow(OrganizationAuthority("7700", a, "r1"))),
                         Insert(OrganizationAuthorityRow(OrganizationAuthority("7700", a, "r2")))]
  {
    var first := RawAuthority("r1", "a_b", "c", "North", "Addr 1");
    var second := RawAuthority("r2", "a", "b_c", "South", "Addr 2");
    var a := Authority("a_b", "c", "North", "Addr 1");
    var l1 := OrganizationAuthority("7700", a, "r1");
    var l2 := OrganizationAuthority("7700", a, "r2");
    assert [first, second][..1] == [first];
    assert [first][..0] == [];
    assert AuthorityIndex("a_b", "c") == "a_b_c";
    assert AuthorityIndex("a", "b_c") == "a_b_c";
    assert LinkIndex("7700", "a_b", "r1") == "7700_a_b_r1";
    assert LinkIndex("7700", "a_b", "r2") == "7700_a_b_r2";
    var st1 := AuthoritySpec([], Cleared(), "7700", first);
    assert LinkSpec([], Cleared().(authorities := map["a_b_c" := a]), a, "r1", "7700")
        == (l1, false, RunState([], map[], map["a_b_c" := a], map["7700_a_b_r1" := l1]));
    assert st1 == RunState([Insert(AuthorityRow(a)), Insert(OrganizationAuthorityRow(l1))], map[],
                           map["a_b_c" := a], map["7700_a_b_r1" := l1]);
    assert AuthoritiesSpec([], Cleared(), "7700", [first]) == st1;
    assert "7700_a_b_r2" != "7700_a_b_r1";
    assert LinkSpec([], st1, a, "r2", "7700")
        == (l2, false, st1.(links := map["7700_a_b_r1" := l1, "7700_a_b_r2" := l2]));
    assert Insert(AuthorityRow(a)) in st1.changes;
  }

  // ---------------------------------------------------------------------------
  // Documents and licenses
  // ---------------------------------------------------------------------------

  /** The documents whose type is one of ALL_TYPES, in order. */
  function Recognized(cfg: Config, raws: seq<RawDocument>): (r: seq<RawDocument>)
    ensures |r| <= |raws|
    ensures forall k :: 0 <= k < |r| ==> r[k].docType in cfg.documentTypes
    decreases |raws|
  {
    if raws == [] then []
    else
      var init := Recognized(cfg, raws[..|raws| - 1]);
      if raws[|raws| - 1].docType in cfg.documentTypes then init + [raws[|raws| - 1]] else init
  }

  /** Recognized keeps each recognized document as often as it occurs, and nothing else. */
  lemma {:induction false} RecognizedCounts(cfg: Config, raws: seq<RawDocument>)
    ensures var r := Recognized(cfg, raws);
      && (forall d :: multiset(r)[d] == if d.docType in cfg.documentTypes then multiset(raws)[d] else 0)
      && (forall d :: d in r <==> d in raws && d.docType in cfg.documentTypes)
    decreases |raws|
  {
    var r := Recognized(cfg, raws);
    if raws != [] {
      var init := raws[..|raws| - 1];
      var last := raws[|raws| - 1];
      assert raws == init + [last];
      RecognizedCounts(cfg, init);
      var tail := if last.docType in cfg.documentTypes then [last] else [];
      assert r == Recognized(cfg, init) + tail;
      assert multiset(raws) == multiset(init) + multiset{last};
      assert multiset(r) == multiset(Recognized(cfg, init)) + multiset(tail);
    }
    forall d ensures d in r <==> d in raws && d.docType in cfg.documentTypes {
      assert d in r <==> multiset(r)[d] > 0;
      assert d in raws <==> multiset(raws)[d] > 0;
    }
  }

  /** Recognized keeps the order: filtering a concatenation filters each part. */
  lemma {:induction false} RecognizedAppend(cfg: Config, a: seq<RawDocument>, b: seq<RawDocument>)
    ensures Recognized(cfg, a + b) == Recognized(cfg, a) + Recognized(cfg, b)
    decreases |b|
  {
    if b == [] {
      assert a + b == a;
      assert Recognized(cfg, b) == [];
    } else {
      var init := b[..|b| - 1];
      var last := b[|b| - 1];
      var ab := a + b;
      RecognizedAppend(cfg, a, init);
      assert ab[..|ab| - 1] == a + init;
      assert ab[|ab| - 1] == last;
      var tail := if last.docType in cfg.documentTypes then [last] else [];
      assert Recognized(cfg, ab) == Recognized(cfg, a + init) + tail;
      assert Recognized(cfg, b) == Recognized(cfg, init) + tail;
      assert Recognized(cfg, a) + Recognized(cfg, init) + tail == Recognized(cfg, a) + (Recognized(cfg, init) + tail);
    }
  }

  /** Documents of a type outside ALL_TYPES make no difference at all. */
  lemma {:induction false} DocumentsSkipUnrecognized(cfg: Config, store: seq<Row>, st: RunState, org: string,
                                                     raws: seq<RawDocument>)
    ensures DocumentsSpec(cfg, store, st, org, raws) == DocumentsSpec(cfg, store, st, org, Recognized(cfg, raws))
    decreases |raws|
  {
    if raws != [] {
      var init := raws[..|raws| - 1];
      var last := raws[|raws| - 1];
      DocumentsSkipUnrecognized(cfg, store, st, org, init);
      if last.docType in cfg.documentTypes {
        var r := Recognized(cfg, init) + [last];
        assert r[..|r| - 1] == Recognized(cfg, init);
      }
    }
  }

  /** getDocuments queues only inserts, of recognized documents of this organization that
      the store does not hold; a stored document is left untouched, and no cache changes. */
  lemma {:induction false} DocumentsInsertOnlyNew(cfg: Config, store: seq<Row>, st: RunState, org: string,
                                                  raws: seq<RawDocument>)
    ensures var st' := DocumentsSpec(cfg, store, st, org, raws);
      && st'.persons == st.persons && st'.authorities == st.authorities && st'.links == st.links
      && st.changes <= st'.changes
      && forall i :: |st.changes| <= i < |st'.changes| ==>
           && st'.changes[i].Insert? && st'.changes[i].row.DocumentRow?
           && st'.changes[i].row.org == org
           && st'.changes[i].row.docType in cfg.documentTypes
           && KeyOf(st'.changes[i].row) !in Keys(store)
    decreases |raws|
  {
    if raws != [] {
      var init := raws[..|raws| - 1];
      var st1 := DocumentsSpec(cfg, store, st, org, init);
      DocumentsInsertOnlyNew(cfg, store, st, org, init);
      var st' := DocumentSpec(cfg, store, st1, org, raws[|raws| - 1]);
      forall i | |st.changes| <= i < |st'.changes|
        ensures && st'.changes[i].Insert? && st'.changes[i].row.DocumentRow?
                && st'.changes[i].row.org == org
                && st'.changes[i].row.docType in cfg.documentTypes
                && KeyOf(st'.changes[i].row) !in Keys(store)
      {
        if i < |st1.changes| {
          assert st'.changes[i] == st1.changes[i];
        }
      }
    }
  }

  /** The converse of DocumentsInsertOnlyNew: every recognized document the store lacks for
      the organization is queued. */
  lemma {:induction false} DocumentsInsertAllNew(cfg: Config, store: seq<Row>, st: RunState, org: string,
                                                 raws: seq<RawDocument>)
    ensures var st' := DocumentsSpec(cfg, store, st, org, raws);
      forall k :: (0 <= k < |raws| && raws[k].docType in cfg.documentTypes
                   && Lookup(store, DocumentKey(raws[k].series, raws[k].number, org)).None?) ==>
        Insert(DocumentOf(cfg, org, raws[k])) in st'.changes
    decreases |raws|
  {
    if raws != [] {
      var init := raws[..|raws| - 1];
      var st1 := DocumentsSpec(cfg, store, st, org, init);
      DocumentsInsertAllNew(cfg, store, st, org, init);
      var st' := DocumentSpec(cfg, store, st1, org, raws[|raws| - 1]);
      assert st1.changes <= st'.changes;
      forall k | (0 <= k < |raws| && raws[k].docType in cfg.documentTypes
                  && Lookup(store, DocumentKey(raws[k].series, raws[k].number, org)).None?)
        ensures Insert(DocumentOf(cfg, org, raws[k])) in st'.changes
      {
        if k < |init| {
          assert init[k] == raws[k];
          var c := Insert(DocumentOf(cfg, org, raws[k]));
          assert c in st1.changes;
          var i :| 0 <= i < |st1.changes| && st1.changes[i] == c;
          assert st'.changes[i] == c;
        } else {
          assert st'.changes[|st'.changes| - 1] == Insert(DocumentOf(cfg, org, raws[k]));
        }
      }
    }
  }

  /** For an organization create() builds, with the database's foreign keys in place, every
      recognized document is queued: the "already stored" branch cannot fire. */
  lemma NewOrganizationDocuments(cfg: Config, store: seq<Row>, st: RunState, org: string, raws: seq<RawDocument>)
    requires Integrity(store)
    requires Lookup(store, OrganizationKey(org)).None?
    ensures var st' := DocumentsSpec(cfg, store, st, org, raws);
      forall k :: 0 <= k < |raws| && raws[k].docType in cfg.documentTypes ==>
        Insert(DocumentOf(cfg, org, raws[k])) in st'.changes
  {
    forall k | 0 <= k < |raws|
      ensures Lookup(store, DocumentKey(raws[k].series, raws[k].number, org)).None?
    {
      ScopedLookupMisses(store, org, DocumentKey(raws[k].series, raws[k].number, org));
    }
    DocumentsInsertAllNew(cfg, store, st, org, raws);
  }

  /** getLicenses queues one insert per license the store does not hold for the
      organization, and nothing else. */
  lemma LicenseWrites(cfg: Config, store: seq<Row>, st: RunState, org: string, raw: RawLicense)
    ensures var st' := LicenseSpec(cfg, store, st, org, raw);
      && (Lookup(store, LicenseKey(raw.series, raw.number, org)).Some? ==> st' == st)
      && (Lookup(store, LicenseKey(raw.series, raw.number, org)).None? ==>
            st' == Persist(st, LicenseOf(cfg, org, raw)) && KeyOf(LicenseOf(cfg, org, raw)) !in Keys(store))
  {
  }

  /** getLicenses over the whole list keeps earlier writes and the caches, and each write
      it adds inserts a license of the list that the store lacks. */
  lemma {:induction false} LicensesInsertOnlyNew(cfg: Config, store: seq<Row>, st: RunState, org: string,
                                                 raws: seq<RawLicense>)
    ensures var st' := LicensesSpec(cfg, store, st, org, raws);
      && st'.persons == st.persons && st'.authorities == st.authorities && st'.links == st.links
      && st.changes <= st'.changes
      && |st'.changes| <= |st.changes| + |raws|
      && (forall i :: |st.changes| <= i < |st'.changes| ==>
            exists k :: 0 <= k < |raws| && Lookup(store, LicenseKey(raws[k].series, raws[k].number, org)).None?
                        && st'.changes[i] == Insert(LicenseOf(cfg, org, raws[k])))
    decreases |raws|
  {
    if raws != [] {
      var init := raws[..|raws| - 1];
      var last := raws[|raws| - 1];
      var st1 := LicensesSpec(cfg, store, st, org, init);
      LicensesInsertOnlyNew(cfg, store, st, org, init);
      var st' := LicenseSpec(cfg, store, st1, org, last);
      LicenseWrites(cfg, store, st1, org, last);
      forall i | |st.changes| <= i < |st'.changes|
        ensures exists k :: 0 <= k < |raws| && Lookup(store, LicenseKey(raws[k].series, raws[k].number, org)).None?
                            && st'.changes[i] == Insert(LicenseOf(cfg, org, raws[k]))
      {
        if i < |st1.changes| {
          var k :| 0 <= k < |init| && Lookup(store, LicenseKey(init[k].series, init[k].number, org)).None?
                   && st1.changes[i] == Insert(LicenseOf(cfg, org, init[k]));
          assert init[k] == raws[k] && st'.changes[i] == st1.changes[i];
        } else {
          var k := |raws| - 1;
          assert raws[k] == last;
        }
      }
    }
  }

  /** The converse: every license of the list that the store lacks is inserted. */
  lemma {:induction false} LicensesInsertAllNew(cfg: Config, store: seq<Row>, st: RunState, org: string,
                                                raws: seq<RawLicense>)
    ensures var st' := LicensesSpec(cfg, store, st, org, raws);
      forall k :: 0 <= k < |raws| && Lookup(store, LicenseKey(raws[k].series, raws[k].number, org)).None? ==>
        Insert(LicenseOf(cfg, org, raws[k])) in st'.changes
    decreases |raws|
  {
    if raws != [] {
      var init := raws[..|raws| - 1];
      var st1 := LicensesSpec(cfg, store, st, org, init);
      LicensesInsertAllNew(cfg, store, st, org, init);
      var st' := LicenseSpec(cfg, store, st1, org, raws[|raws| - 1]);
      assert st1.changes <= st'.changes;
      forall k | 0 <= k < |raws| && Lookup(store, LicenseKey(raws[k].series, raws[k].number, org)).None?
        ensures Insert(LicenseOf(cfg, org, raws[k])) in st'.changes
      {
        if k < |init| {
          assert init[k] == raws[k];
          var c := Insert(LicenseOf(cfg, org, raws[k]));
          assert c in st1.changes;
          var i :| 0 <= i < |st1.changes| && st1.changes[i] == c;
          assert st'.changes[i] == c;
        } else {
          assert st'.changes[|st'.changes| - 1] == Insert(LicenseOf(cfg, org, raws[k]));
        }
      }
    }
  }

  // ---------------------------------------------------------------------------
  // Smb, finance, address
  // ---------------------------------------------------------------------------

  /** An absent smb entry is null and nothing is written; a stored one is left alone. */
  lemma SmbWrites(cfg: Config, store: seq<Row>, st: RunState, org: string, raw: Option<RawSmb>)
    ensures var st' := SmbSpec(cfg, store, st, org, raw);
      && (st' == st <==> raw.None? || Lookup(store, RegistrySmbKey(raw.value.smbType, raw.value.category, org)).Some?)
      && (st' != st ==> st'.changes == st.changes + [Insert(RegistrySmbRow(org, raw.value.smbType, raw.value.category,
                                                                          cfg.parseDate(raw.value.issueDate)))])
  {
  }

  /** A Finance row is added only when the full (income, expense, debt, penalty) tuple is not
      stored for the organization; an absent finance block writes nothing. */
  lemma FinanceWrites(store: seq<Row>, st: RunState, org: string, raw: Option<RawFinance>)
    ensures var st' := FinanceSpec(store, st, org, raw);
      && (st' == st <==>
            raw.None? || Lookup(store, FinanceKey(raw.value.income, raw.value.expense, raw.value.debt, raw.value.penalty, org)).Some?)
      && (st' != st ==>
            st'.changes == st.changes + [Insert(FinanceRow(org, raw.value.taxSystem, raw.value.income, raw.value.expense,
                                                           raw.value.debt, raw.value.penalty))])
  {
  }

  /** One geography level: null when its fias id is empty, the stored level unchanged when
      found, otherwise exactly one new row. */
  lemma GeoResolution(store: seq<Row>, st: RunState, level: Level, raw: RawGeo)
    ensures var (r, st') := GeoSpec(store, st, level, raw);
      && (IsEmpty(raw.fiasId) ==> r.None? && st' == st)
      && (!IsEmpty(raw.fiasId) ==> r == raw.fiasId)
      && (!IsEmpty(raw.fiasId) && Lookup(store, GeoKey(level, raw.fiasId.value)).Some? ==> st' == st)
      && (!IsEmpty(raw.fiasId) && Lookup(store, GeoKey(level, raw.fiasId.value)).None? ==>
            st' == Persist(st, GeoRow(level, raw.fiasId.value, raw.name, raw.typeFull)))
  {
  }

  /** One geography level keeps the earlier writes and is null exactly when its fias id
      is empty. */
  lemma GeoStep(store: seq<Row>, st: RunState, level: Level, raw: RawGeo)
    ensures var (r, st') := GeoSpec(store, st, level, raw);
      st.changes <= st'.changes && (r.None? <==> IsEmpty(raw.fiasId))
  {
  }

  /** getAddress: an absent address is null and a stored one is returned as is; otherwise
      the five levels are resolved in order and the address row is queued last, each level
      null exactly when its fias id is empty. */
  lemma AddressWrites(store: seq<Row>, st: RunState, org: string, raw: Option<RawAddress>)
    ensures var st' := AddressSpec(store, st, org, raw);
      && ((raw.None? || Lookup(store, AddressKey(raw.value.fiasId, org)).Some?) ==> st' == st)
      && (raw.Some? && Lookup(store, AddressKey(raw.value.fiasId, org)).None? ==>
            && |st'.changes| > |st.changes|
            && st'.changes[..|st.changes|] == st.changes
            && st'.changes[|st'.changes| - 1].Insert?
            && var row := st'.changes[|st'.changes| - 1].row;
               && row.AddressRow? && row.org == org && row.fiasId == raw.value.fiasId
               && (row.region.None? <==> IsEmpty(raw.value.region.fiasId))
               && (row.area.None? <==> IsEmpty(raw.value.area.fiasId))
               && (row.city.None? <==> IsEmpty(raw.value.city.fiasId))
               && (row.settlement.None? <==> IsEmpty(raw.value.settlement.fiasId))
               && (row.street.None? <==> IsEmpty(raw.value.street.fiasId)))
  {
    if raw.Some? && Lookup(store, AddressKey(raw.value.fiasId, org)).None? {
      NewAddressWrites(store, st, org, raw.value);
    }
  }

  lemma NewAddressWrites(store: seq<Row>, st: RunState, org: string, a: RawAddress)
    requires Lookup(store, AddressKey(a.fiasId, org)).None?
    ensures var st' := AddressSpec(store, st, org, Some(a));
      && |st'.changes| > |st.changes|
      && st'.changes[..|st.changes|] == st.changes
      && st'.changes[|st'.changes| - 1].Insert?
      && var row := st'.changes[|st'.changes| - 1].row;
         && row.AddressRow? && row.org == org && row.fiasId == a.fiasId
         && (row.region.None? <==> IsEmpty(a.region.fiasId))
         && (row.area.None? <==> IsEmpty(a.area.fiasId))
         && (row.city.None? <==> IsEmpty(a.city.fiasId))
         && (row.settlement.None? <==> IsEmpty(a.settlement.fiasId))
         && (row.street.None? <==> IsEmpty(a.street.fiasId))
  {
    var (region, st1) := GeoSpec(store, st, RegionLevel, a.region);
    var (area, st2) := GeoSpec(store, st1, AreaLevel, a.area);
    var (city, st3) := GeoSpec(store, st2, CityLevel, a.city);
    var (settlement, st4) := GeoSpec(store, st3, SettlementLevel, a.settlement);
    var (street, st5) := GeoSpec(store, st4, StreetLevel, a.street);
    GeoStep(store, st, RegionLevel, a.region);
    GeoStep(store, st1, AreaLevel, a.area);
    GeoStep(store, st2, CityLevel, a.city);
    GeoStep(store, st3, SettlementLevel, a.settlement);
    GeoStep(store, st4, StreetLevel, a.street);
    var row := AddressRow(org, a.fiasId, a.details, region, area, city, settlement, street);
    var st' := AddressSpec(store, st, org, Some(a));
    assert st'.changes == st5.changes + [Insert(row)];
    assert st.changes <= st5.changes;
  }
}
