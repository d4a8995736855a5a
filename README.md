# Organization registry import and dice classifier, modelled in Dafny

This project models two pieces of PHP code.

**`DataParserService` (example.php).** It receives one message describing an organization,
keyed by its inn. If the organization is already in the database, `parse` does nothing
(`update` is an empty TODO) and clears its caches. Otherwise `create` opens a transaction
and builds the organization's graph. That graph holds the organization row with its
`managementInn`, the founders and managers, okveds, authorities, documents, the SME
registry entry, the finance block, the address with its five geography levels, and the
licenses. Most related entities are looked up in the database only. Persons, authorities
and organization–authority links also use run-scoped caches (`$persons`, `$authorities`,
`$organizationAuthorities`). `getPerson` and `getAuthorities` ask the database first and
then the cache. `getOrganizationAuthority` checks its cache first and asks the database
only on a miss. After that, `create` flushes and commits. The file declares
`strict_types`, so a null passed to `mb_strtolower` (a manager's fio source, the
management name, a new person's gender) or to `getForeignOrganization` raises a
TypeError; `find` with a null identifier raises as well.
Any exception rolls the transaction back, clears the unit of work and is rethrown. In that
case `parse` never reaches `clear()`, so the caches keep what the failed run put in them.

The model is in four layers:

- `entities.dfy` (`Entities`) holds the payload, the entities, the rows of the database,
  their natural keys, the repository lookup (`Lookup`, and its scan `FindOne`) and the
  commit of a transaction's writes (`Apply`). Lookups see committed rows only. This is
  exact for `findOneBy`, which queries the database and so misses entities persisted
  earlier in the same transaction. It is a deliberate, pessimistic choice for `find`,
  which also consults Doctrine's identity map (see "Left out"). Within a run, only the
  service's own caches make pending entities visible.
- `resolution.dfy` (`Resolution`) gives each operation a function over a `RunState`. A
  `RunState` holds the pending writes (the unit of work, as `Insert`/`Update` changes) and
  the three caches. The functions follow the source's branches, in its order.
- `service.dfy` (`Service`) has the class `DataParserService`. Its fields are the store, the
  unit of work, the transaction's flushed writes, whether the entity manager is open, and
  the three caches. Each method is proved against its function in `Resolution`. The loops
  carry invariants over prefixes of the input lists.
- `tracking.dfy` (`Tracking`) and `properties.dfy` (`RunProperties`) prove what those
  functions promise. Examples: at most one insert per cache slot in a run; all-or-nothing
  commits; cache behaviour; founder/manager identity triples; documents, licenses,
  smb, finance and address only added when absent.

**`getCombination` (test.php)** sorts a roll of dice, counts the repeats, measures runs of
consecutive values and maps the three numbers to a Russian label. `dice.dfy` (`Dice`)
has the algorithm as imperative code: an in-place selection sort on an array, counting
loops and the nested run loop. Its result is proved equal to a specification of the hand,
built from the sorted roll. The lemmas show that the hand depends only on the multiset of
dice. They also show that the source's run counter counts steps, not values: for any roll
it is at most `countUnique - 1`. So neither straight label can ever be returned, and for
five dice the label depends only on `maxRepeat` and `countUnique`.

## Model

| member | source | states |
|---|---|---|
| `Dice.SortedOf` | test.php:4 | the sorted arrangement of a roll is sorted and a permutation of it |
| `Dice.SortInPlace` | test.php:4 | `sort($game)` leaves the array sorted and a permutation of its old contents |
| `Dice.CountValues` | test.php:5 | `array_count_values`: exactly the values of the roll are keys, each mapped to its number of occurrences |
| `Dice.MaxCount` | test.php:7 | `max($repeats)` is one of the counts and no count exceeds it |
| `Dice.RunLengths` | test.php:8-22 | the nested loop's `$sequence` equals `Runs` of the sorted roll: for each position, the number of +1 steps reachable from it while skipping equal values |
| `Dice.MaxRun` | test.php:23 | `max($sequence)` is one of the run lengths and bounds them all |
| `Dice.Max` | test.php:23 | the maximum of a non-empty list is an element of it and bounds every element |
| `Dice.GetCombination` | test.php:2-51 | the returned label is `Label(Hand(game))`, the ladder applied to maxRepeat, countUnique and maxSequence of the sorted roll |
| `Dice.RepeatsAgree` | test.php:5-7 | the count map has `CountUnique` keys and its maximum is the largest multiplicity |
| `Dice.SortedUnique` | test.php:4 | two sorted sequences with the same multiset are equal, so the sort's result is determined |
| `Dice.HandDependsOnlyOnMultiset` | test.php:2-23 | two rolls with the same dice in any order get the same combination |
| `Dice.StepsBound` | test.php:11-21 | the steps counted from a position are at most the number of distinct larger values after it |
| `Dice.RunBound` | test.php:8-22 | every run length is at most `countUnique - 1` |
| `Dice.MaxSequenceBound` | test.php:23 | maxSequence is at most `countUnique - 1` |
| `Dice.StraightsUnreachable` | test.php:34-39 | no roll is ever classified as a large or a small straight |
| `Dice.CountSumSnoc` | test.php:5 | adding one die raises the total count over a duplicate-free list of values by one exactly when the die's value is in the list |
| `Dice.RepeatsSumToRoll` | test.php:5-7 | over a duplicate-free list holding every value of the roll, the counts add up to the number of dice |
| `Dice.SumValuesIsCountSum` | test.php:5-7 | summing a count map over a list of its keys equals summing the multiplicities of the roll |
| `Dice.RepeatCountsSum` | test.php:5-7 | the repeat counts of `array_count_values` add up to the number of dice |
| `Dice.DistinctBound` | test.php:6 | `countUnique` is between 1 and the number of dice |
| `Dice.MultiplicityBound` | test.php:5 | no value occurs more often than there are dice |
| `Dice.RollBounds` | test.php:5-7 | maxRepeat and countUnique both lie between 1 and the number of dice |
| `Dice.ClassifyWithoutStraights` | test.php:25-50 | once the straights are out of reach, each label holds exactly under its maxRepeat/countUnique condition |
| `Dice.HandByShape` | test.php:25-50 | for five dice: poker iff maxRepeat 5, four of a kind iff 4, full house iff 3 with two values, set iff 3 otherwise, two pairs iff 2 with three values, pair iff 2 otherwise, chance iff 1 |
| `Entities.Lookup` | example.php:229-233 | a repository lookup returns a committed row with the requested natural key, and returns nothing exactly when no committed row has that key |
| `Entities.FindOne` | example.php:531 | `find`/`findOneBy` scan the committed rows and return `Lookup` of the key |
| `Entities.ApplyKeys` | example.php:117-118 | committing a transaction loses no key and adds exactly the keys of the inserted rows |
| `Entities.ScopedLookupMisses` | example.php:100-118 | while an organization is not stored, no lookup of a row scoped to it (documents, licenses, smb, finance, address, links) can hit, given the database's foreign keys |
| `Resolution.FoundersStopAtError` | example.php:203-254 | once one founder raises, the rest of the list is never reached |
| `Resolution.FoundersFirstError` | example.php:203-254 | an exception from the founders loop is that of the first founder that raises: every founder before it went through, and the loop's result is that founder's outcome |
| `Resolution.ManagersStopAtError` | example.php:262-312 | once one manager raises, the rest of the list is never reached |
| `Resolution.ManagersFirstError` | example.php:262-312 | an exception from the managers loop is that of the first manager that raises, every manager before it having gone through |
| `Resolution.OkvedsStopAtError` | example.php:319-343 | once one okved raises, the rest of the list is never reached |
| `Resolution.ManagementInn` | example.php:174-184 | the scan lowercases each manager's fio source and the management name before testing the inn: it raises a TypeError at the first manager where either is null; it returns the inn of the first manager with a non-empty inn and a matching lowercased name, all managers before it having been gone past; it returns null exactly when every manager is gone past |
| `Service.DataParserService.constructor` | example.php:59-82 | a new service has empty caches, an empty unit of work and no open transaction |
| `Service.DataParserService.Parse` | example.php:84-98 | `parse` follows `ParseSpec` on the store and the caches, and leaves the service idle with coherent caches |
| `Service.DataParserService.Create` | example.php:100-129 | the first exception raised (by a resolver, else by the flush) is rethrown and the store is unchanged; otherwise every queued write is committed; the caches are those the build left; the unit of work is cleared either way |
| `Service.DataParserService.Build` | example.php:103-116 | the body of the try block follows `BuildSpec`; the entity manager is open afterwards unless it was closed and the managementInn scan raised |
| `Service.DataParserService.GetRecords` | example.php:109-115 | the steps after the managers follow `RecordsSpec`: an error from the okveds ends the build; otherwise the remaining steps run |
| `Service.DataParserService.GetRest` | example.php:110-115 | the steps after the okveds follow `RestSpec`, which raises nothing |
| `Service.DataParserService.BeginTransaction` | example.php:104 | opens the transaction |
| `Service.DataParserService.QueueInsert` | example.php:194 | `persist` of a new entity appends exactly one insert of it to the unit of work and changes nothing else |
| `Service.DataParserService.QueueInsertOnce` | example.php:391-392 | `persist` of an entity the unit of work may already hold follows `PersistOnce`: nothing when its insert is already pending, otherwise one insert appended |
| `Service.DataParserService.QueueUpdate` | example.php:249 | `persist` of a managed entity whose fields were set appends one update of it to the unit of work |
| `Service.DataParserService.Flush` | example.php:117 | a failing flush raises, writes nothing and closes the entity manager; a successful one moves the unit of work into the transaction |
| `Service.DataParserService.Commit` | example.php:118 | commit applies the transaction's writes to the store |
| `Service.DataParserService.Rollback` | example.php:121 | rollback discards the transaction's writes |
| `Service.DataParserService.ClearUnitOfWork` | example.php:119 | the entity manager's clear empties the unit of work |
| `Service.DataParserService.FillOrganization` | example.php:136-197 | a TypeError in the managementInn scan is raised before anything is queued and before the entity manager is reopened; otherwise exactly one organization row is queued, with its dates parsed and its managementInn, and the entity manager is open afterwards |
| `Service.DataParserService.ScanManagementInn` | example.php:174-184 | the loop returns `ManagementInn`, the TypeError for a null fio source or management name included |
| `Service.DataParserService.Clear` | example.php:884-889 | the three caches are emptied |
| `Service.DataParserService.GetPerson` | example.php:527-556 | follows `PersonSpec`: a null inn raises; a cached person is returned as is; a stored person is cached without a write; otherwise a null gender raises a TypeError, and a new person, gender lowercased, is queued and cached |
| `Service.DataParserService.GetForeignOrganization` | example.php:762-779 | follows `ForeignOrganizationSpec`: a null hid or name raises a type error, a stored organization is reused, and otherwise a new one is queued |
| `Service.DataParserService.Identify` | example.php:209-226 | the identity triple follows `IdentifySpec` |
| `Service.DataParserService.GetFounders` | example.php:199-256 | follows `FoundersSpec`: founders in order, each identified by its triple, its link updated or inserted and its Founder row inserted when not stored; the first error ends the loop and is raised |
| `Service.DataParserService.GetOrganizationFounder` | example.php:743-760 | reports whether the link of this founder to this organization is stored, and returns a link for exactly this pair |
| `Service.DataParserService.GetManagers` | example.php:258-315 | follows `ManagersSpec`: managers in order, physical for any of the physical types, each link updated or inserted with its post and type, its Manager row inserted when not stored; the first error ends the loop |
| `Service.DataParserService.GetOrganizationManager` | example.php:781-798 | reports whether the link of this manager to this organization is stored, and returns a link for exactly this pair |
| `Service.DataParserService.GetOkveds` | example.php:317-346 | follows `OkvedsSpec`: okveds in order; a null code makes `find` raise a missing identifier and ends the loop; otherwise the link is updated with its main flag when stored and inserted otherwise, and the okved row is inserted when not stored |
| `Service.DataParserService.GetOrganizationOkved` | example.php:800-817 | reports whether the link of this okved to this organization is stored, and returns a link for exactly this pair |
| `Service.DataParserService.GetAuthorities` | example.php:348-398 | follows `AuthoritiesSpec`: `AuthoritySpec` applied to each authority in order |
| `Service.DataParserService.GetAuthority` | example.php:353-395 | one iteration follows `AuthoritySpec`: a stored authority is linked as is; otherwise the "code_type" cache entry (new if absent) is re-cached, linked and persisted once |
| `Service.DataParserService.GetOrganizationAuthority` | example.php:819-856 | follows `LinkSpec`: the cached link for "inn_code_role" if any, else the stored link (not cached), else a new link that is cached |
| `Service.DataParserService.GetDocuments` | example.php:400-433 | follows `DocumentsSpec`: each document whose type is in ALL_TYPES and which the store lacks for (series, number, organization) is queued |
| `Service.DataParserService.GetLicenses` | example.php:435-467 | follows `LicensesSpec`: each license the store lacks for (series, number, organization) is queued, with its dates parsed |
| `Service.DataParserService.GetRegistrySmb` | example.php:469-494 | follows `SmbSpec`: an absent entry writes nothing; otherwise the entry is queued unless (type, category, organization) is stored |
| `Service.DataParserService.GetFinance` | example.php:496-525 | follows `FinanceSpec`: an absent block writes nothing; otherwise the row is queued unless (income, expense, debt, penalty, organization) is stored |
| `Service.DataParserService.GetAddress` | example.php:558-599 | follows `AddressSpec`: an absent or stored address writes nothing; otherwise the five levels are resolved in order and the address row is queued |
| `Service.DataParserService.GetGeo` | example.php:601-729 | `getRegion`, `getArea`, `getCity`, `getSettlement` and `getStreet` each follow `GeoSpec` for their level |
| `Tracking.PersonGood` | example.php:527-556 | getPerson keeps every earlier write and cache entry, and keeps the unit of work inserting each cached entity at most once |
| `Tracking.IdentifyGood` | example.php:209-226 | the same holds for resolving one identity triple |
| `Tracking.FoundersGood` | example.php:199-256 | the same holds for the whole founders list |
| `Tracking.ManagersGood` | example.php:258-315 | the same holds for the whole managers list |
| `Tracking.OkvedGood` | example.php:319-343 | one okved keeps earlier writes and caches and the at-most-once property |
| `Tracking.OkvedsGood` | example.php:317-346 | the okveds loop keeps earlier writes and caches and the at-most-once property |
| `Tracking.LinkGood` | example.php:819-856 | getOrganizationAuthority caches a new link under its own "inn_code_role" index, and the cache stays coherent |
| `Tracking.AuthorityGood` | example.php:353-395 | one authority step inserts the authority and the link at most once per cache slot |
| `Tracking.AuthoritiesGood` | example.php:348-398 | the same holds for the whole authorities list |
| `Tracking.DocumentsGood` | example.php:400-433 | getDocuments keeps earlier writes and caches and the at-most-once property |
| `Tracking.LicensesGood` | example.php:435-467 | getLicenses keeps earlier writes and caches and the at-most-once property |
| `Tracking.AddressGood` | example.php:558-599 | getAddress and its five levels keep earlier writes and caches and the at-most-once property |
| `Tracking.RecordsGood` | example.php:109-115 | the steps after the managers keep the at-most-once property |
| `Tracking.RestGood` | example.php:110-115 | the steps after the okveds keep the at-most-once property |
| `Tracking.BuildGood` | example.php:103-115 | the whole build, after the organization row, keeps the at-most-once property |
| `Tracking.OrganizationFirst` | example.php:106 | a TypeError in the managementInn scan ends the build with nothing queued; otherwise the build keeps earlier writes and its first write is the organization row |
| `RunProperties.ExistingOrganizationUntouched` | example.php:88-96 | an organization already stored: nothing is raised, the store is unchanged, the caches are cleared |
| `RunProperties.FailedRunKeepsCaches` | example.php:90-96 | a run that raises leaves the store unchanged and the unit of work empty, and keeps every cache entry; a normal return leaves the caches empty |
| `RunProperties.CreateAllOrNothing` | example.php:100-129 | the exception is the first one raised; on an exception the store is unchanged; otherwise exactly the inserted keys are added, the organization's included |
| `RunProperties.RunInsertsCachedEntitiesOnce` | example.php:527-556 | within one run, Person inserts have distinct inns, Authority inserts distinct "code_type" indexes and link inserts distinct "inn_code_role" indexes |
| `RunProperties.PersonResolution` | example.php:527-556 | a null inn raises a missing identifier; a person that has to be created without a gender raises a TypeError and writes nothing; a cache hit returns the cached person and queues nothing; otherwise the person is cached, and queued, with its gender lowercased, only when the store lacks it |
| `RunProperties.IdentityTriple` | example.php:209-226 | physical holders are keyed by person inn, legal ones by org inn; the foreign-organization slot is filled with the hid exactly when both inns are empty; a missing identifier exactly for a physical holder without inn; a TypeError exactly for a new physical person without gender or a foreign organization without hid or name |
| `RunProperties.FounderWrites` | example.php:229-250 | the link is updated when stored and inserted otherwise; a Founder row is inserted exactly when no stored founder has the triple |
| `RunProperties.ForeignOrganizationWrites` | example.php:223-226 | resolving a triple keeps earlier writes; it queues a ForeignOrganization exactly when the person (for a physical holder) resolved without raising, both inns are empty, the hid and the display name are present and the store lacks the hid, and then it is the last write, with that hid and name |
| `RunProperties.ManagerWrites` | example.php:288-309 | an error in the triple is raised with nothing more written; otherwise the link is updated when stored and inserted otherwise, with the post and the type, and a Manager row is inserted exactly when no stored manager has the triple |
| `RunProperties.OkvedWrites` | example.php:322-342 | a null code raises a missing identifier and writes nothing; otherwise the link is updated when stored and inserted otherwise, with its main flag, an Okved row is inserted exactly when the store lacks the code, and no cache changes |
| `RunProperties.OkvedsRaiseOnNullCode` | example.php:319-343 | getOkveds raises exactly when some okved has a null code, and then with a missing identifier |
| `RunProperties.FounderRowsNotDeduplicated` | example.php:228-250 | the same legal founder listed twice against an empty store queues two identical Founder inserts |
| `RunProperties.AuthorityResolution` | example.php:353-395 | a stored authority is neither cached nor inserted; otherwise the "code_type" cache entry is reused or created, and it is the only authority the step can insert |
| `RunProperties.LinkResolution` | example.php:819-856 | the link cache is consulted first; a stored link is returned without being cached; only a new link is cached |
| `RunProperties.AuthorityIndexCollision` | example.php:353 | authorities ("a_b","c") and ("a","b_c") share an index, so within one run the second is never created and is linked as the first |
| `RunProperties.Recognized` | example.php:405 | the recognized documents are no more than the documents, and their types are all in ALL_TYPES |
| `RunProperties.RecognizedCounts` | example.php:404-408 | each document whose type is in ALL_TYPES is kept exactly as often as it occurs, and no other document is kept |
| `RunProperties.RecognizedAppend` | example.php:404-408 | the filter keeps the documents' order: filtering a concatenation concatenates the filtered parts |
| `RunProperties.DocumentsSkipUnrecognized` | example.php:404-408 | documents whose type is not in ALL_TYPES make no difference |
| `RunProperties.DocumentsInsertOnlyNew` | example.php:400-433 | getDocuments only inserts recognized documents of this organization that the store lacks, and touches no cache |
| `RunProperties.DocumentsInsertAllNew` | example.php:400-433 | every recognized document that the store lacks for (series, number, organization) is queued |
| `RunProperties.NewOrganizationDocuments` | example.php:100-116 | for an organization create() builds, with the database's foreign keys in place, every recognized document is queued |
| `RunProperties.LicenseWrites` | example.php:435-467 | a stored license is left untouched; otherwise exactly one license row, absent from the store, is queued |
| `RunProperties.LicensesInsertOnlyNew` | example.php:435-467 | getLicenses keeps earlier writes and the caches, adds at most one write per license, and each write inserts a license of the list that the store lacks |
| `RunProperties.LicensesInsertAllNew` | example.php:435-467 | every license of the list that the store lacks for (series, number, organization) is inserted |
| `RunProperties.SmbWrites` | example.php:469-494 | nothing is written exactly when the entry is absent or stored; otherwise exactly one smb row is queued |
| `RunProperties.FinanceWrites` | example.php:496-525 | nothing is written exactly when the block is absent or the full (income, expense, debt, penalty) tuple, nulls included, is stored; otherwise one finance row is queued |
| `RunProperties.GeoResolution` | example.php:601-625 | a level is null when its fias id is empty, is reused when stored, and is otherwise queued once |
| `RunProperties.AddressWrites` | example.php:558-599 | an absent or stored address writes nothing; otherwise the address row is queued last, keeping earlier writes, and each level is null exactly when its fias id is empty |
| `RunProperties.NewAddressWrites` | example.php:565-596 | an address the store lacks: the five levels are resolved, earlier writes are kept and the address row is queued last, each level null exactly when its fias id is empty |

## Left out

- Doctrine's internals are not modelled. A repository lookup is a scan of the committed rows. `persist` of a new entity is an `Insert`. A managed entity whose fields were set becomes an `Update`, and `persist` of an unchanged managed entity writes nothing. The identity map, `registerManaged`, flush ordering and surrogate ids are left out.
- Database failures, which the model places at flush time (for example a primary-key clash), are the `flushError` parameter. Lookups are assumed not to fail.
- `ForeignOrganization`'s generated id is modelled as its hid, so `foreignOrgId` carries the hid. This hides a case: for a foreign organization created in this run, `getId()` is null until the flush. The Founder and Manager lookups at example.php:229 and example.php:288 then run with `foreignOrgId` null and the other two parts as given: ("", null, null) for a physical holder whose inn is "", (null, "0", null) for a legal holder whose inn is "0", and (null, null, null) for a legal holder without inn. A holder of neither type never gets that far: its display name is null, so `getForeignOrganization` raises a TypeError at example.php:224 and example.php:283 before any lookup. findOneBy matches "" with `= ''` and null with `IS NULL`, so a stored Founder or Manager with the same triple would be reused, and two new foreign organizations reached through the same empty-inn pattern share one triple.
- `find` is modelled as a lookup of committed rows only, like `findOneBy`. In Doctrine, `find` first consults the identity map, so an entity persisted earlier in the same transaction is found. This concerns `getOkveds` (example.php:323), `getPerson` (example.php:531) and the five geography getters (example.php:608, 634, 660, 686, 712). For `getPerson`, the `$persons` cache hides the difference. For the geography getters it makes no difference either: a payload has one address, each level is resolved once, and the level is part of the key. For `getOkveds`, a payload that lists the same okved code twice against a store lacking it makes the model queue two Okved inserts where Doctrine writes one row. Such a payload makes the model's commit differ from the real one.
- The date parser and `mb_strtolower` are parameters of `Config`: opaque functions, with no Unicode case folding modelled. So are the enum constants and `DocumentTypesEnum::ALL_TYPES`.
- The finance amounts are modelled as optional integers: a null amount is matched with IS NULL, as findOneBy does. A float amount, and the comparison of a float with a stored integer, are not modelled.
- The fio's surname, name and patronymic and the other copied payload strings are modelled as strings. Three of these are also findOneBy criteria, where a null would match with IS NULL: the authority's code and type (example.php:357-361), the smb entry's type and category (example.php:476-480) and the address's fias id (example.php:565-567). Typing them as non-null strings leaves out those null lookups. The series and number of documents (example.php:411-415) and licenses (example.php:443-447) are nullable in the model and are matched as findOneBy matches them. Only the values that go through `mb_strtolower` (gender, the fio source, the management name) are nullable here, because under strict_types a null there raises a TypeError. The entity classes and their setters are not part of this model, so whether a null raises in a setter is not modelled.
- The capital's float cast, the logger, the SQL logger switch and the message lock are left out. None of them changes which rows are written.
- `update` is an empty TODO in the source and is modelled as doing nothing.
- `fillPerson` and `updateInnLastParsedDate` are never called and are not part of this model.
- The lists the `get*` methods return are never used by `create`, so they are not modelled.
- The smb entry sits inside `documents` (`create` passes `documents.smb` to `getRegistrySmb`), so `getDocuments` also iterates over it. The model keeps it as a separate payload field and does not feed it to `getDocuments`. This matches the source whenever its type is not one of ALL_TYPES, because `getDocuments` then skips it.
- The payload's inn is assumed present: `find(null)` on the organization is not modelled. A null okved code is modelled: `find(null)` raises a missing identifier.
- Recreating the entity manager when it is closed is modelled as a flag that becomes true again; the new manager's empty unit of work is not modelled separately.
- Dice.GetCombination: requires a non-empty roll. For an empty roll, `max()` of the empty count array throws a ValueError under PHP 8, and under PHP 7 returns false, after which the ladder yields 'шанс'. Neither case is modelled.
- The random roll and the `var_dump` driver in test.php are I/O and are left out; `getCombination` takes the roll as its parameter.
- Integer widths: PHP integers are modelled as unbounded; dice values and counts are far below 64 bits.
