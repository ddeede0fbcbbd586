# Shlink visit pipeline and short-URL rules, modelled in Dafny

This project models the decision logic at the core of Shlink's visit pipeline and short-URL domain:

- **ShortUrls** (`short_url.dfy`): the short-URL entity as an immutable record. It covers the `fromMeta` and `fromImport` factories, the partial `update` with its title-overwrite rule, the `regenerateShortCode` guards and the `isEnabled` gate (visit cap, then the start of the validity window, then its end).
- **LocateVisit** (`locate_visit.dfy`): the handler that locates a freshly recorded visit. It checks the GeoLite database, asks the IP resolver, stores the location, flushes and dispatches `VisitLocated`. The handler is a pure function from the looked-up visit, the database-update outcome and the resolver to the visit as left behind, plus the trace of calls made on the collaborators.
- **NotifyVisitToMercure** (`notify_visit_to_mercure.dfy`): the handler that announces a located visit on the Mercure hub. It picks the updates from the orphan flag and publishes them in order. The first publish that throws ends the loop, and the error is swallowed.
- **VisitsStatsHelper** (`visits_stats_helper.dfy`): overall visit counts, and the three paginated listings. The short-URL and tag listings are guarded by existence checks; the orphan listing has no guard.
- **ApiKeyRoles** (`role_definition.dfy`): the immutable `RoleDefinition` value with its two named constructors.
- `visits.dfy` holds the visit entity shared by both handlers. `wrappers.dfy` holds `Option`, `Result` and the log levels.

Modelling choices:
- Time is an integer `now` parameter.
- The random short-code generator is a function parameter `generate` from a length to a code.
- The relation resolver is a record of two functions. `SimpleResolver` is an assumed stand-in for the default one (see "Left out").
- Repositories are sets of in-use short codes and existing tags, plus count values.
- The collaborators of the handlers are inputs:
  - the entity manager's lookup is an `Option<Visit>`;
  - the database updater is a `DbUpdateOutcome`;
  - the IP resolver is a function from an address to `Resolved(location)` or `WrongIp`;
  - the Mercure publisher is a predicate saying which updates throw.

The `LocateVisit` handler's own source is not part of this model. Its behaviour is the one `module/Core/test/EventDispatcher/LocateVisitTest.php` fixes test by test. The test counts calls on test doubles; it does not order them. It fixes these behaviours:
- A visit that cannot be found is logged as a warning, with no flush, no lookup and **no** `VisitLocated` dispatch (test lines 69-73).
- An address the resolver rejects is logged as a warning, and there is **no** flush (test lines 95-99).

The test does not pin down five things:
- an override address together with a non-locatable visit address;
- a database-update failure for a visit that needs no lookup;
- the visit's location after the resolver rejects its address;
- whether the database is checked when the visit is missing (that test sets no expectation on the updater);
- the order of the calls, including whether the database check comes before the locatability test, since the test counts calls and does not order them.

For these the model makes its own choices. The calls come in this order: find the visit, then check the database, then locate, then dispatch `VisitLocated` last. A missing visit is logged and the handler stops there, so the database is not checked. Locating does a lookup when an override was given or the visit's own address is locatable, and the lookup uses the override if there is one. After a rejected address the model leaves the location as it was, which is consistent with there being no flush.

Publishing to Mercure happens inside a single `try` around the whole loop, so once one update fails, the later ones are never attempted.

Editing with an edit that mentions no field is not always the identity. `update` overwrites a null title together with its auto-resolved flag. `UpdateWithNoChanges` states exactly when the identity holds.

## Model

| member | source | states |
|---|---|---|
| `ApiKeyRoles.ForAuthoredShortUrls` | module/Rest/src/ApiKey/Model/RoleDefinition.php:20-23 | the role is `AUTHORED_SHORT_URLS`, the metadata is empty and names no domain |
| `ApiKeyRoles.ForDomain` | module/Rest/src/ApiKey/Model/RoleDefinition.php:25-28 | the role is `DOMAIN_SPECIFIC` and the metadata is exactly `domain_id ↦ d`, so the domain can be read back |
| `ApiKeyRoles.WellFormedIsConstructed` | module/Rest/src/ApiKey/Model/RoleDefinition.php:14-38 | the private constructor is reachable only through the two factories: every well-formed definition equals one factory's result, and the accessors give back what was constructed |
| `ApiKeyRoles.ForDomainInjective` | module/Rest/src/ApiKey/Model/RoleDefinition.php:20-28 | different domains give different definitions, and no domain role equals the authored-URLs role |
| `ShortUrls.FromMeta` | module/Core/src/Entity/ShortUrl.php:58-81 | the custom slug becomes the short code when present, else a generated code of the requested length; the custom-slug flag records whether a slug was given; tags and domain come from the (default or given) resolver; everything else is copied from the metadata; not persisted, no visits, no import provenance |
| `ShortUrls.FromImport` | module/Core/src/Entity/ShortUrl.php:83-105 | the original code is the short code (and counts as a custom slug) only when it is imported; provenance and the original code are always recorded; the creation date is the imported one; no validity window and no visit cap; the short-code length is the default 5 |
| `ShortUrls.Update` | module/Core/src/Entity/ShortUrl.php:170-198 | `update` itself; it has no contract of its own, and its effect is stated by `UpdateSemantics` (each assigned field) and `UpdateKeepsIdentity` (every other field) |
| `ShortUrls.UpdateSemantics` | module/Core/src/Entity/ShortUrl.php:170-198 | each of validSince, validUntil, maxVisits, longUrl and tags changes only when provided; a provided null long URL keeps the old one; title and its flag are replaced iff the title is null, a title was provided, or both titles were auto-resolved |
| `ShortUrls.UpdateKeepsIdentity` | module/Core/src/Entity/ShortUrl.php:170-198 | an edit never touches the id, short code, creation date, visit count, domain, custom-slug flag, import data or author: every field the method does not assign keeps its value |
| `ShortUrls.UpdateIdempotent` | module/Core/src/Entity/ShortUrl.php:170-198 | applying the same edit twice gives the same short URL as applying it once |
| `ShortUrls.UpdateWithNoChanges` | module/Core/src/Entity/ShortUrl.php:190-197 | an edit that mentions nothing leaves the short URL unchanged iff its title is set or not flagged auto-resolved |
| `ShortUrls.RegenerateShortCode` | module/Core/src/Entity/ShortUrl.php:203-216 | fails iff a non-imported custom slug was given (checked first) or the entity is persisted; on success only the short code changes, to a generated one |
| `ShortUrls.RegenerateAgain` | module/Core/src/Entity/ShortUrl.php:203-216 | a successful regeneration leaves the guards satisfied, so it can be repeated |
| `ShortUrls.FromMetaRegenerable` | module/Core/src/Entity/ShortUrl.php:72-74 | a short URL created from metadata may be regenerated iff no custom slug was given |
| `ShortUrls.FromImportRegenerable` | module/Core/src/Entity/ShortUrl.php:95-101 | an imported short URL may always be regenerated before persistence, even with its original code kept as slug |
| `ShortUrls.IsEnabled` | module/Core/src/Entity/ShortUrl.php:218-237 | disabled when the cap is set and reached, when now is strictly before validSince, or strictly after validUntil; enabled when none of these holds |
| `ShortUrls.WindowBoundsInclusive` | module/Core/src/Entity/ShortUrl.php:225-236 | for a short URL whose visit cap is absent or not reached, validSince == now and validUntil == now do not disable; one instant outside either bound does |
| `ShortUrls.EnabledTimesConvex` | module/Core/src/Entity/ShortUrl.php:225-236 | the instants at which a short URL is enabled form an interval |
| `ShortUrls.EnabledMonotoneInVisits` | module/Core/src/Entity/ShortUrl.php:220-223 | a short URL enabled with some visit count is enabled with any smaller count |
| `ShortUrls.ImportedIsEnabled` | module/Core/src/Entity/ShortUrl.php:83-105 | a freshly imported short URL is enabled at every instant |
| `LocateVisit.LocateStep` | module/Core/test/EventDispatcher/LocateVisitTest.php:77-160 | one or two calls; the first is a lookup iff an address was handed in or the visit's own address is locatable; only the location can change; unless the step ends with a flush the visit is as it was, and after a flush it has some location |
| `LocateVisit.HandleUrlVisited` | module/Core/test/EventDispatcher/LocateVisitTest.php:56-238 | a visit comes back iff it was found, and `VisitLocated` for the event's id is dispatched iff the visit was found (the test's counts). The call order is the model's choice, since the test does not fix it: the visit lookup comes first, the database check second when the visit was found, and the dispatch last |
| `LocateVisit.MissingVisit` | module/Core/test/EventDispatcher/LocateVisitTest.php:57-74 | a missing visit logs one warning, with no lookup, no flush and no dispatch (the test's assertions). It also makes no database check, which is the model's choice: the test sets no expectation on the updater |
| `LocateVisit.WrongAddress` | module/Core/test/EventDispatcher/LocateVisitTest.php:77-100 | a rejected address: one lookup, one warning, no flush and one dispatch of `VisitLocated` for the event's id; the location is left as it was, which the test does not assert and the model chooses |
| `LocateVisit.NonLocatableVisit` | module/Core/test/EventDispatcher/LocateVisitTest.php:106-133 | null, empty or loopback address: empty location, one flush, no lookup, no warning, one dispatch |
| `LocateVisit.LocatableVisit` | module/Core/test/EventDispatcher/LocateVisitTest.php:139-160 | the resolver is asked once with the override if given, else the visit's address; its answer is the location; one flush, no warning, one dispatch |
| `LocateVisit.VisitTypeIrrelevant` | module/Core/test/EventDispatcher/LocateVisitTest.php:162-175 | base-path, invalid-short-URL and not-found visits are located exactly like visits to a valid short URL |
| `LocateVisit.OlderDbStillLocates` | module/Core/test/EventDispatcher/LocateVisitTest.php:178-206 | a failed update with an older database: one check, one warning, one lookup, location set, one flush, one dispatch |
| `LocateVisit.NoDbCancelsLocation` | module/Core/test/EventDispatcher/LocateVisitTest.php:209-238 | a failed download with no database: one check, one error, no lookup, no flush, location unchanged, one dispatch |
| `LocateVisit.LocateStepFacts` | module/Core/test/EventDispatcher/LocateVisitTest.php:106-175 | the locating step makes at most one lookup and one flush, changes only the location; without a flush the visit is unchanged, and after a flush some location is stored (possibly the one it already had) |
| `LocateVisit.FoundCallCounts` | module/Core/test/EventDispatcher/LocateVisitTest.php:77-238 | when the visit exists, the number of calls of each kind is the sum over the handler's steps: the find, the database check, its log lines, the location step (skipped when no database exists) and the closing dispatch |
| `LocateVisit.HandlerCallCounts` | module/Core/test/EventDispatcher/LocateVisitTest.php:56-238 | for every visit, database outcome and resolver answer the model admits (see "Left out"): one find, at most one lookup, at most one flush, and `VisitLocated` dispatched exactly once, as the last call, iff the visit exists |
| `LocateVisit.HandlerChangesOnlyLocation` | module/Core/test/EventDispatcher/LocateVisitTest.php:102-238 | for every visit, database outcome and resolver answer the model admits (see "Left out"): only the location of the visit can change; no flush means nothing changed; a flush always leaves a location set |
| `NotifyVisitToMercure.UpdatesForVisit` | module/Core/src/EventDispatcher/NotifyVisitToMercure.php:62-72 | an orphan visit gets one update, the orphan one; any other visit gets two, the short-URL update first and the global one second; all are about that visit |
| `NotifyVisitToMercure.PublishAll` | module/Core/src/EventDispatcher/NotifyVisitToMercure.php:50-56 | publishing attempts a prefix of the list in order; every attempt but the last succeeded; the run failed iff the last one threw; a run that did not fail attempted every update |
| `NotifyVisitToMercure.PublishRunUnique` | module/Core/src/EventDispatcher/NotifyVisitToMercure.php:50-56 | that description admits exactly one run, the one `PublishAll` computes |
| `NotifyVisitToMercure.PublishEach` | module/Core/src/EventDispatcher/NotifyVisitToMercure.php:50-56 | the loop that publishes one update after another and stops at the first throw produces exactly that run |
| `NotifyVisitToMercure.HandleVisitLocated` | module/Core/src/EventDispatcher/NotifyVisitToMercure.php:37-57 | a missing visit is one warning and nothing published; otherwise the visit's updates are published as described, and the log is empty or a single debug record, the debug record marking exactly a run that ended in a throw; never an error, nothing propagates; when the visit found has the event's id, every update attempted is about that visit |
| `NotifyVisitToMercure.Delivered` | module/Core/src/EventDispatcher/NotifyVisitToMercure.php:50-56 | the updates that reached the hub are a prefix of the list, none of them threw, and the count drops by one only when the run failed |
| `NotifyVisitToMercure.OrphanVisitPublishesOne` | module/Core/src/EventDispatcher/NotifyVisitToMercure.php:64-66 | an orphan visit attempts exactly the orphan update; a debug record appears iff it threw |
| `NotifyVisitToMercure.ShortUrlVisitPublishesTwo` | module/Core/src/EventDispatcher/NotifyVisitToMercure.php:68-71 | a visit to a short URL publishes the short-URL update, then the global one, with nothing logged |
| `NotifyVisitToMercure.FirstFailureSkipsTheRest` | module/Core/src/EventDispatcher/NotifyVisitToMercure.php:50-56 | when the first publish throws, the second update is never attempted, nothing is delivered, and a debug record is left |
| `NotifyVisitToMercure.SecondFailureKeepsTheFirst` | module/Core/src/EventDispatcher/NotifyVisitToMercure.php:50-56 | when only the second publish throws, the first update is delivered and a debug record is left |
| `NotifyVisitToMercure.LocatedVisitIsAnnounced` | module/Core/src/EventDispatcher/NotifyVisitToMercure.php:37-57 | a visit found by the locating handler is dispatched and, if still found, gets at least one update about it attempted |
| `VisitsStatsHelper.GetVisitsStats` | module/Core/src/Visit/VisitsStatsHelper.php:36-42 | total is the key-scoped visit count, orphans is the orphan count |
| `VisitsStatsHelper.OrphanCountIgnoresKey` | module/Core/src/Visit/VisitsStatsHelper.php:41 | the orphan count does not depend on the API key |
| `VisitsStatsHelper.SpecFor` | module/Core/src/Visit/VisitsStatsHelper.php:53 | no API key means no restriction; a key contributes its own restriction |
| `VisitsStatsHelper.CreatePaginator` | module/Core/src/Visit/VisitsStatsHelper.php:96-103 | the paginator wraps the adapter with maxPerPage = itemsPerPage and currentPage = page |
| `VisitsStatsHelper.VisitsForShortUrl` | module/Core/src/Visit/VisitsStatsHelper.php:48-65 | fails with ShortUrlNotFound iff the code is not in use for the identifier's domain under the key's restriction; on success lists that short URL's visits with the given params under the same restriction the check used, unrestricted without a key |
| `VisitsStatsHelper.VisitsForTag` | module/Core/src/Visit/VisitsStatsHelper.php:71-83 | fails with TagNotFound iff the tag does not exist for the key; on success the paginator over that tag's visits for that key, set to the requested page size and page |
| `VisitsStatsHelper.OrphanVisits` | module/Core/src/Visit/VisitsStatsHelper.php:88-94 | always a paginator over orphan visits with the given params; no failure case |
| `VisitsStatsHelper.OrphanVisitsIgnoreRepositories` | module/Core/src/Visit/VisitsStatsHelper.php:88-94 | the orphan listing does not depend on what the repositories hold: no existence check |
| `VisitsStatsHelper.ListingsUseRequestedPage` | module/Core/src/Visit/VisitsStatsHelper.php:96-102 | every listing that succeeds is set to the requested page size and page |
| `VisitsStatsHelper.VisibleShortUrlIsListed` | module/Core/src/Visit/VisitsStatsHelper.php:57-64 | when the short URL is visible to the key, the listing always succeeds with the paginator over its visits |

## Left out

- The default relation resolver (used when none is given) is not part of this model. `SimpleResolver` is an assumed stand-in: it turns the names into their set, which drops duplicates, and keeps the domain as given. No property of the tags is claimed beyond "whatever the resolver returns".
- Collaborator failures of the `LocateVisit` handler other than the three its test fixes are not modelled. Those three are the resolver's wrong-IP error and the database updater's two failures (an older copy exists, or none does). Any other exception, from the resolver, the updater or the flush, is outside the model. The handler properties (`HandlerCallCounts`, `HandlerChangesOnlyLocation`) are claimed only for the modelled outcomes.
- The `LocateVisit` handler source is not part of this model. Its behaviour is taken from its test. The combinations the test leaves open are resolved as described above.
- `IpAddress::LOCALHOST`, `Visit::isLocatable` and `Visit::isOrphan` are not part of this model:
  - the loopback address is taken to be `127.0.0.1`;
  - locatable means present, non-empty and not loopback;
  - orphan means "not a visit to a valid short URL".
- Remote addresses are anonymised when the visit is created. That step is not modelled: the visit carries the address the handler sees.
- The float latitude and longitude of a location are not modelled. A location is its text fields, and the empty location has all of them empty.
- Persistence (Doctrine entity manager, repositories, ids) is reduced to inputs and sets. Query semantics of the restrictions an API key imposes are not modelled, and neither is how `ApiKey::spec()` is built from roles.
- Pagerfanta paging arithmetic and its validation of page numbers and page sizes are not modelled. Only the configured page and page size are visible.
- Mercure transport and the topics and payloads of updates are not modelled. A generator that throws while building updates is not modelled either, although the `try` in `__invoke` would swallow that too.
- Logger message texts and context arrays are not modelled. A log record is its level.
- `ShortUrlMeta` and `ShortUrlEdit` construction is not modelled: input filtering, slug normalisation and tag normalisation. The default short-code length of 5 is the value `ShortUrlMeta` applies; that class is not part of this model.
- `createEmpty` and `withLongUrl` depend on `ShortUrlMeta::createEmpty`, which is not part of this model, so they are left out. Both are `fromMeta` on particular metadata.
- Getters and `setVisits` of `ShortUrl` are not modelled as members. They are the record's fields, and the visit collection is reduced to its count.
- Timestamps are integers. Chronos time zones are not modelled.
- The string values of the `Role` constants are not modelled, because the class defining them is not part of this model. Roles are an enumeration.
