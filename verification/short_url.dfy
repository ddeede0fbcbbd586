/** The short URL entity (module/Core/src/Entity/ShortUrl.php) as an immutable
    record: the factories, the partial update, short-code regeneration and the
    "enabled" gate. The clock, the random short-code generator and the relation
    resolver are parameters. */
module ShortUrls {
  import opened Wrappers
  import opened ApiKeyRoles

  /** A point in time; only its order matters. */
  type Timestamp = int

  /** The short-code length ShortUrlMeta applies when none is given. */
  const DefaultShortCodesLength: int := 5

  datatype ShortUrl = ShortUrl(
    id: Option<string>,               // assigned on persistence
    longUrl: string,
    shortCode: string,
    dateCreated: Timestamp,
    visitsCount: nat,                 // count($this->visits)
    tags: set<string>,
    validSince: Option<Timestamp>,
    validUntil: Option<Timestamp>,
    maxVisits: Option<int>,
    domain: Option<string>,           // the domain's authority
    customSlugWasProvided: bool,
    shortCodeLength: int,
    importSource: Option<string>,
    importOriginalShortCode: Option<string>,
    authorApiKey: Option<ApiKey>,
    title: Option<string>,
    titleWasAutoResolved: bool
  )

  /** The already validated creation data (ShortUrlMeta). */
  datatype ShortUrlMeta = ShortUrlMeta(
    longUrl: string,
    tags: seq<string>,
    validSince: Option<Timestamp>,
    validUntil: Option<Timestamp>,
    maxVisits: Option<int>,
    customSlug: Option<string>,
    shortCodeLength: int,
    domain: Option<string>,
    apiKey: Option<ApiKey>,
    title: Option<string>,
    titleWasAutoResolved: bool
  ) {
    predicate HasCustomSlug() {
      customSlug.Some?
    }
  }

  /** A record read from another Shlink instance (ImportedShlinkUrl). */
  datatype ImportedShlinkUrl = ImportedShlinkUrl(
    source: string,
    longUrl: string,
    tags: seq<string>,
    createdAt: Timestamp,
    domain: Option<string>,
    shortCode: string,
    title: Option<string>
  )

  /** One field of an edit: whether the caller mentioned it, and the value it gave.
      A field can be provided with the value null, hence the explicit flag. */
  datatype Patch<T> = Patch(wasProvided: bool, value: T)

  /** ShortUrlEdit: a partial update. The title value and the auto-resolved flag are
      read by `update` even when the title was not provided. */
  datatype ShortUrlEdit = ShortUrlEdit(
    validSince: Patch<Option<Timestamp>>,
    validUntil: Patch<Option<Timestamp>>,
    maxVisits: Patch<Option<int>>,
    longUrl: Patch<Option<string>>,
    tags: Patch<seq<string>>,
    title: Patch<Option<string>>,
    titleWasAutoResolved: bool
  )

  /** An edit that mentions nothing, as a request without fields produces it. */
  const NoChanges: ShortUrlEdit := ShortUrlEdit(
    Patch(false, None), Patch(false, None), Patch(false, None), Patch(false, None),
    Patch(false, []), Patch(false, None), false)

  /** The relation resolver: turns tag names into the entity's tag collection and a
      domain authority into the domain it refers to. */
  datatype RelationResolver = RelationResolver(
    resolveTags: seq<string> -> set<string>,
    resolveDomain: Option<string> -> Option<string>
  )

  /** A stand-in for the resolver used when none is given: the tag set of the names and
      the domain as given. The real default resolver is not part of this model. */
  const SimpleResolver: RelationResolver := RelationResolver(
    (names: seq<string>) => set t | t in names,
    (d: Option<string>) => d)

  // ---------------------------------------------------------------------------
  // Factories

  /** `fromMeta`: every field comes from the metadata, except the short code,
      which is the custom slug when there is one and a generated code otherwise. */
  function FromMeta(meta: ShortUrlMeta, resolver: Option<RelationResolver>, now: Timestamp,
                    generate: int -> string): (s: ShortUrl)
    ensures meta.customSlug.Some? ==> s.shortCode == meta.customSlug.value
    ensures meta.customSlug.None? ==> s.shortCode == generate(meta.shortCodeLength)
    ensures s.customSlugWasProvided <==> meta.customSlug.Some?
    ensures s.tags == resolver.GetOr(SimpleResolver).resolveTags(meta.tags)
    ensures s.domain == resolver.GetOr(SimpleResolver).resolveDomain(meta.domain)
    ensures s.longUrl == meta.longUrl && s.dateCreated == now
    ensures s.validSince == meta.validSince && s.validUntil == meta.validUntil
    ensures s.maxVisits == meta.maxVisits && s.shortCodeLength == meta.shortCodeLength
    ensures s.authorApiKey == meta.apiKey
    ensures s.title == meta.title && s.titleWasAutoResolved == meta.titleWasAutoResolved
    ensures s.id.None? && s.visitsCount == 0
    ensures s.importSource.None? && s.importOriginalShortCode.None?
  {
    var r := resolver.GetOr(SimpleResolver);
    ShortUrl(
      id := None,
      longUrl := meta.longUrl,
      shortCode := meta.customSlug.GetOr(generate(meta.shortCodeLength)),
      dateCreated := now,
      visitsCount := 0,
      tags := r.resolveTags(meta.tags),
      validSince := meta.validSince,
      validUntil := meta.validUntil,
      maxVisits := meta.maxVisits,
      domain := r.resolveDomain(meta.domain),
      customSlugWasProvided := meta.HasCustomSlug(),
      shortCodeLength := meta.shortCodeLength,
      importSource := None,
      importOriginalShortCode := None,
      authorApiKey := meta.apiKey,
      title := meta.title,
      titleWasAutoResolved := meta.titleWasAutoResolved)
  }

  /** The metadata `fromImport` builds: the imported URL, domain, tags and title, and the
      original short code as custom slug only when it is to be kept. Everything else
      takes ShortUrlMeta's defaults. */
  function ImportMeta(url: ImportedShlinkUrl, importShortCode: bool): ShortUrlMeta {
    ShortUrlMeta(
      longUrl := url.longUrl,
      tags := url.tags,
      validSince := None,
      validUntil := None,
      maxVisits := None,
      customSlug := if importShortCode then Some(url.shortCode) else None,
      shortCodeLength := DefaultShortCodesLength,
      domain := url.domain,
      apiKey := None,
      title := url.title,
      titleWasAutoResolved := false)
  }

  /** `fromImport`: `fromMeta` on the import metadata, then the provenance and the
      original creation date are recorded. */
  function FromImport(url: ImportedShlinkUrl, importShortCode: bool,
                      resolver: Option<RelationResolver>, generate: int -> string): (s: ShortUrl)
    ensures importShortCode ==> s.shortCode == url.shortCode && s.customSlugWasProvided
    ensures !importShortCode ==>
      s.shortCode == generate(DefaultShortCodesLength) && !s.customSlugWasProvided
    ensures s.importSource == Some(url.source)
    ensures s.importOriginalShortCode == Some(url.shortCode)
    ensures s.dateCreated == url.createdAt
    ensures s.longUrl == url.longUrl && s.title == url.title && !s.titleWasAutoResolved
    ensures s.tags == resolver.GetOr(SimpleResolver).resolveTags(url.tags)
    ensures s.domain == resolver.GetOr(SimpleResolver).resolveDomain(url.domain)
    ensures s.validSince.None? && s.validUntil.None? && s.maxVisits.None?
    ensures s.id.None? && s.visitsCount == 0 && s.authorApiKey.None?
    ensures s.shortCodeLength == DefaultShortCodesLength
  {
    var created := FromMeta(ImportMeta(url, importShortCode), resolver, url.createdAt, generate);
    created.(importSource := Some(url.source),
             importOriginalShortCode := Some(url.shortCode),
             dateCreated := url.createdAt)
  }

  // ---------------------------------------------------------------------------
  // Partial update

  /** Whether `update` overwrites the title and its auto-resolved flag. */
  predicate ReplacesTitle(s: ShortUrl, edit: ShortUrlEdit) {
    || s.title.None?
    || edit.title.wasProvided
    || (s.titleWasAutoResolved && edit.titleWasAutoResolved)
  }

  /** `update`: applies a partial edit in place of the PHP mutation; the lemmas below
      state its effect field by field. */
  function Update(s: ShortUrl, edit: ShortUrlEdit, resolver: Option<RelationResolver>): ShortUrl
  {
    var validSince := if edit.validSince.wasProvided then edit.validSince.value else s.validSince;
    var validUntil := if edit.validUntil.wasProvided then edit.validUntil.value else s.validUntil;
    var maxVisits := if edit.maxVisits.wasProvided then edit.maxVisits.value else s.maxVisits;
    var longUrl := if edit.longUrl.wasProvided then edit.longUrl.value.GetOr(s.longUrl) else s.longUrl;
    var tags := if edit.tags.wasProvided
                then resolver.GetOr(SimpleResolver).resolveTags(edit.tags.value)
                else s.tags;
    var replace := ReplacesTitle(s, edit);
    s.(validSince := validSince,
       validUntil := validUntil,
       maxVisits := maxVisits,
       longUrl := longUrl,
       tags := tags,
       title := if replace then edit.title.value else s.title,
       titleWasAutoResolved := if replace then edit.titleWasAutoResolved else s.titleWasAutoResolved)
  }

  /** What `update` does to each field it may touch: a field changes only when the edit
      provides it; a provided null long URL keeps the current one; provided tags are
      re-resolved; the title and its flag are replaced together or not at all. */
  lemma UpdateSemantics(s: ShortUrl, edit: ShortUrlEdit, resolver: Option<RelationResolver>)
    ensures var u := Update(s, edit, resolver);
      && u.validSince == (if edit.validSince.wasProvided then edit.validSince.value else s.validSince)
      && u.validUntil == (if edit.validUntil.wasProvided then edit.validUntil.value else s.validUntil)
      && u.maxVisits == (if edit.maxVisits.wasProvided then edit.maxVisits.value else s.maxVisits)
      && (edit.longUrl.wasProvided && edit.longUrl.value.Some? ==> u.longUrl == edit.longUrl.value.value)
      && (!edit.longUrl.wasProvided || edit.longUrl.value.None? ==> u.longUrl == s.longUrl)
      && u.tags == (if edit.tags.wasProvided
                    then resolver.GetOr(SimpleResolver).resolveTags(edit.tags.value)
                    else s.tags)
      && (ReplacesTitle(s, edit) ==>
            u.title == edit.title.value && u.titleWasAutoResolved == edit.titleWasAutoResolved)
      && (!ReplacesTitle(s, edit) ==>
            u.title == s.title && u.titleWasAutoResolved == s.titleWasAutoResolved)
  {
  }

  /** `update` never touches the identity, the short code and how it was chosen, the
      creation date, the visits, the domain, the import provenance or the author. */
  lemma UpdateKeepsIdentity(s: ShortUrl, edit: ShortUrlEdit, resolver: Option<RelationResolver>)
    ensures var u := Update(s, edit, resolver);
      && u.id == s.id && u.shortCode == s.shortCode && u.dateCreated == s.dateCreated
      && u.visitsCount == s.visitsCount && u.domain == s.domain
      && u.customSlugWasProvided == s.customSlugWasProvided && u.shortCodeLength == s.shortCodeLength
      && u.importSource == s.importSource && u.importOriginalShortCode == s.importOriginalShortCode
      && u.authorApiKey == s.authorApiKey
  {
  }

  /** Applying the same edit twice is the same as applying it once. */
  lemma UpdateIdempotent(s: ShortUrl, edit: ShortUrlEdit, resolver: Option<RelationResolver>)
    ensures Update(Update(s, edit, resolver), edit, resolver) == Update(s, edit, resolver)
  {
  }

  /** An edit that mentions nothing leaves the short URL as it is exactly when the
      title is set or not marked auto-resolved: a null title is always overwritten,
      and the overwrite resets the flag. */
  lemma UpdateWithNoChanges(s: ShortUrl, resolver: Option<RelationResolver>)
    ensures Update(s, NoChanges, resolver) == s <==> s.title.Some? || !s.titleWasAutoResolved
  {
  }

  // ---------------------------------------------------------------------------
  // Short-code regeneration

  datatype RegenerationError = ShortUrlWithCustomSlug | ShortUrlAlreadyPersisted

  /** `regenerateShortCode`: refused for a custom slug that did not come from an import,
      then refused for an already persisted entity; otherwise only the code changes. */
  function RegenerateShortCode(s: ShortUrl, generate: int -> string): (r: Result<ShortUrl, RegenerationError>)
    ensures r.Failure? <==> (s.customSlugWasProvided && s.importSource.None?) || s.id.Some?
    ensures r == Failure(ShortUrlWithCustomSlug) <==> s.customSlugWasProvided && s.importSource.None?
    ensures r.Success? ==> r.value == s.(shortCode := generate(s.shortCodeLength))
  {
    if s.customSlugWasProvided && s.importSource.None? then
      Failure(ShortUrlWithCustomSlug)
    else if s.id.Some? then
      Failure(ShortUrlAlreadyPersisted)
    else
      Success(s.(shortCode := generate(s.shortCodeLength)))
  }

  /** A regeneration that succeeded can be repeated: the guards read nothing it changed. */
  lemma RegenerateAgain(s: ShortUrl, g1: int -> string, g2: int -> string)
    requires RegenerateShortCode(s, g1).Success?
    ensures RegenerateShortCode(RegenerateShortCode(s, g1).value, g2).Success?
  {
  }

  /** A short URL fresh from `fromMeta` may get a new code exactly when no slug was given. */
  lemma FromMetaRegenerable(meta: ShortUrlMeta, resolver: Option<RelationResolver>, now: Timestamp,
                            g1: int -> string, g2: int -> string)
    ensures RegenerateShortCode(FromMeta(meta, resolver, now, g1), g2).Success? <==> meta.customSlug.None?
  {
  }

  /** An imported short URL may always get a new code before it is persisted, even when
      its original code was kept as custom slug. */
  lemma FromImportRegenerable(url: ImportedShlinkUrl, importShortCode: bool,
                              resolver: Option<RelationResolver>, g1: int -> string, g2: int -> string)
    ensures RegenerateShortCode(FromImport(url, importShortCode, resolver, g1), g2).Success?
  {
  }

  // ---------------------------------------------------------------------------
  // The enabled gate

  /** `isEnabled` at time `now`: the visit cap is checked first, then the start of the
      validity window, then its end. */
  function IsEnabled(s: ShortUrl, now: Timestamp): (enabled: bool)
    ensures s.maxVisits.Some? && s.visitsCount >= s.maxVisits.value ==> !enabled
    ensures s.validSince.Some? && now < s.validSince.value ==> !enabled
    ensures s.validUntil.Some? && s.validUntil.value < now ==> !enabled
    ensures ((s.maxVisits.None? || s.visitsCount < s.maxVisits.value)
             && (s.validSince.None? || s.validSince.value <= now)
             && (s.validUntil.None? || now <= s.validUntil.value)) ==> enabled
  {
    var maxVisitsReached := s.maxVisits.Some? && s.visitsCount >= s.maxVisits.value;
    if maxVisitsReached then false
    else
      var beforeValidSince := s.validSince.Some? && s.validSince.value > now;
      if beforeValidSince then false
      else
        var afterValidUntil := s.validUntil.Some? && s.validUntil.value < now;
        if afterValidUntil then false
        else true
  }

  /** Both ends of the validity window are inclusive. */
  lemma WindowBoundsInclusive(s: ShortUrl)
    requires s.maxVisits.None? || s.visitsCount < s.maxVisits.value
    requires s.validSince.Some? && s.validUntil.Some? && s.validSince.value <= s.validUntil.value
    ensures IsEnabled(s, s.validSince.value) && IsEnabled(s, s.validUntil.value)
    ensures !IsEnabled(s, s.validSince.value - 1) && !IsEnabled(s, s.validUntil.value + 1)
  {
  }

  /** The instants at which a short URL is enabled form an interval. */
  lemma EnabledTimesConvex(s: ShortUrl, t1: Timestamp, t: Timestamp, t2: Timestamp)
    requires t1 <= t <= t2
    requires IsEnabled(s, t1) && IsEnabled(s, t2)
    ensures IsEnabled(s, t)
  {
  }

  /** Visits can only close a short URL: with fewer visits it would be enabled too. */
  lemma EnabledMonotoneInVisits(s: ShortUrl, fewer: nat, now: Timestamp)
    requires fewer <= s.visitsCount
    requires IsEnabled(s, now)
    ensures IsEnabled(s.(visitsCount := fewer), now)
  {
  }

  /** A freshly imported short URL has neither cap nor window, so it is always enabled. */
  lemma ImportedIsEnabled(url: ImportedShlinkUrl, importShortCode: bool,
                          resolver: Option<RelationResolver>, generate: int -> string, now: Timestamp)
    ensures IsEnabled(FromImport(url, importShortCode, resolver, generate), now)
  {
  }
}
