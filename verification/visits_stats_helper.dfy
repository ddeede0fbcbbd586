/** The read side of visits (module/Core/src/Visit/VisitsStatsHelper.php): overall
    counts, and paginated listings by short URL, by tag and of orphan visits. The
    repositories are reduced to what the helper asks of them, and a paginator to its
    adapter and its page settings. */
module VisitsStatsHelper {
  import opened Wrappers
  import opened ApiKeyRoles

  /** A short code together with the domain it belongs to (None: the default domain). */
  datatype ShortUrlIdentifier = ShortUrlIdentifier(shortCode: string, domain: Option<string>)

  datatype DateRange = DateRange(startDate: Option<int>, endDate: Option<int>)

  /** VisitsParams: the date filter, the page (1-based) and the page size, with the
      caller's defaults already applied. */
  datatype VisitsParams = VisitsParams(dateRange: DateRange, page: int, itemsPerPage: int)

  /** What the helper asks of the repositories: which short codes are in use for a
      domain under a query restriction, which tags exist for a key, and the counts. */
  datatype Repositories = Repositories(
    shortCodesInUse: set<(string, Option<string>, Option<Spec>)>,
    existingTags: set<(string, Option<ApiKey>)>,
    countVisits: Option<ApiKey> -> nat,
    countOrphanVisits: nat
  )

  datatype VisitsStats = VisitsStats(visitsCount: nat, orphanVisitsCount: nat)

  /** The source of a paginator's items, with everything it was built from. */
  datatype Adapter =
    | VisitsPaginatorAdapter(identifier: ShortUrlIdentifier, params: VisitsParams, spec: Option<Spec>)
    | VisitsForTagPaginatorAdapter(tag: string, tagParams: VisitsParams, apiKey: Option<ApiKey>)
    | OrphanVisitsPaginatorAdapter(orphanParams: VisitsParams)

  datatype Paginator = Paginator(adapter: Adapter, maxPerPage: int, currentPage: int)

  datatype NotFound = ShortUrlNotFound(identifier: ShortUrlIdentifier) | TagNotFound(tag: string)

  /** `getVisitsStats`: all visits the key may see, and all orphan visits regardless of key. */
  function GetVisitsStats(repos: Repositories, apiKey: Option<ApiKey>): (stats: VisitsStats)
    ensures stats.visitsCount == repos.countVisits(apiKey)
    ensures stats.orphanVisitsCount == repos.countOrphanVisits
  {
    VisitsStats(repos.countVisits(apiKey), repos.countOrphanVisits)
  }

  /** The orphan count is the same whichever key asks. */
  lemma OrphanCountIgnoresKey(repos: Repositories, k1: Option<ApiKey>, k2: Option<ApiKey>)
    ensures GetVisitsStats(repos, k1).orphanVisitsCount == GetVisitsStats(repos, k2).orphanVisitsCount
  {
  }

  /** The restriction a key imposes on short-URL queries; no key means no restriction. */
  function SpecFor(apiKey: Option<ApiKey>): (spec: Option<Spec>)
    ensures spec.None? <==> apiKey.None?
    ensures spec.Some? ==> spec.value.key == apiKey.value
  {
    if apiKey.Some? then Some(SpecOf(apiKey.value)) else None
  }

  /** `createPaginator`: the adapter, configured with the requested page size and page. */
  function CreatePaginator(adapter: Adapter, params: VisitsParams): (p: Paginator)
    ensures p.adapter == adapter
    ensures p.maxPerPage == params.itemsPerPage && p.currentPage == params.page
  {
    Paginator(adapter, params.itemsPerPage, params.page)
  }

  /** Whether the short URL exists as far as the key can see. */
  predicate ShortCodeIsInUse(repos: Repositories, identifier: ShortUrlIdentifier, spec: Option<Spec>) {
    (identifier.shortCode, identifier.domain, spec) in repos.shortCodesInUse
  }

  /** `visitsForShortUrl`: fails when the key cannot see the short URL; otherwise lists
      its visits under the same restriction the existence check used. */
  function VisitsForShortUrl(repos: Repositories, identifier: ShortUrlIdentifier, params: VisitsParams,
                             apiKey: Option<ApiKey>): (r: Result<Paginator, NotFound>)
    ensures r.Failure? <==> !ShortCodeIsInUse(repos, identifier, SpecFor(apiKey))
    ensures r.Failure? ==> r.error == ShortUrlNotFound(identifier)
    ensures r.Success? ==>
      r.value == CreatePaginator(VisitsPaginatorAdapter(identifier, params, SpecFor(apiKey)), params)
  {
    var spec := SpecFor(apiKey);
    if !ShortCodeIsInUse(repos, identifier, spec) then
      Failure(ShortUrlNotFound(identifier))
    else
      Success(CreatePaginator(VisitsPaginatorAdapter(identifier, params, spec), params))
  }

  /** `visitsForTag`: fails when the tag does not exist for the key; otherwise lists the
      tag's visits for that key. */
  function VisitsForTag(repos: Repositories, tag: string, params: VisitsParams,
                        apiKey: Option<ApiKey>): (r: Result<Paginator, NotFound>)
    ensures r.Failure? <==> (tag, apiKey) !in repos.existingTags
    ensures r.Failure? ==> r.error == TagNotFound(tag)
    ensures r.Success? ==>
      r.value == CreatePaginator(VisitsForTagPaginatorAdapter(tag, params, apiKey), params)
  {
    if (tag, apiKey) !in repos.existingTags then
      Failure(TagNotFound(tag))
    else
      Success(CreatePaginator(VisitsForTagPaginatorAdapter(tag, params, apiKey), params))
  }

  /** `orphanVisits`: no existence check, so never a failure. */
  function OrphanVisits(repos: Repositories, params: VisitsParams): (p: Paginator)
    ensures p.adapter == OrphanVisitsPaginatorAdapter(params)
  {
    CreatePaginator(OrphanVisitsPaginatorAdapter(params), params)
  }

  /** Listing orphan visits does not look at what the repositories hold. */
  lemma OrphanVisitsIgnoreRepositories(r1: Repositories, r2: Repositories, params: VisitsParams)
    ensures OrphanVisits(r1, params) == OrphanVisits(r2, params)
  {
  }

  /** Whichever listing succeeds, its paginator is set to the requested page size and page. */
  lemma ListingsUseRequestedPage(repos: Repositories, identifier: ShortUrlIdentifier, tag: string,
                                 params: VisitsParams, apiKey: Option<ApiKey>)
    ensures var p := OrphanVisits(repos, params);
      p.maxPerPage == params.itemsPerPage && p.currentPage == params.page
    ensures var r := VisitsForShortUrl(repos, identifier, params, apiKey);
      r.Success? ==> r.value.maxPerPage == params.itemsPerPage && r.value.currentPage == params.page
    ensures var r := VisitsForTag(repos, tag, params, apiKey);
      r.Success? ==> r.value.maxPerPage == params.itemsPerPage && r.value.currentPage == params.page
  {
  }

  /** The existence check is the only thing between a caller and the listing: when the
      short URL is visible, the listing is the paginator over its visits. */
  lemma VisibleShortUrlIsListed(repos: Repositories, identifier: ShortUrlIdentifier, params: VisitsParams,
                                apiKey: Option<ApiKey>)
    requires ShortCodeIsInUse(repos, identifier, SpecFor(apiKey))
    ensures VisitsForShortUrl(repos, identifier, params, apiKey)
         == Success(Paginator(VisitsPaginatorAdapter(identifier, params, SpecFor(apiKey)),
                              params.itemsPerPage, params.page))
  {
  }
}
