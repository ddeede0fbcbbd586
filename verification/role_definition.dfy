/** Roles attached to API keys, and the API key itself as far as the rest of the
    model needs it (module/Rest/src/ApiKey/Model/RoleDefinition.php). */
module ApiKeyRoles {
  import opened Wrappers

  /** The closed set of role names. Their string values live in a class that is
      not part of this model, so they are kept as an enumeration. */
  datatype Role = AuthoredShortUrls | DomainSpecific

  /** The metadata key under which a domain-specific role stores its domain. */
  const DomainIdKey: string := "domain_id"

  /** An immutable role name plus its metadata array. Dafny datatype values cannot
      be mutated, so the accessors `roleName()` and `meta()` are the fields. */
  datatype RoleDefinition = RoleDefinition(roleName: Role, meta: map<string, string>)

  /** The domain a definition is restricted to, read back from its metadata. */
  function DomainIdOf(rd: RoleDefinition): Option<string> {
    if DomainIdKey in rd.meta then Some(rd.meta[DomainIdKey]) else None
  }

  /** The shapes the two named constructors can produce; the PHP constructor is private. */
  predicate WellFormed(rd: RoleDefinition) {
    match rd.roleName
    case AuthoredShortUrls => rd.meta == map[]
    case DomainSpecific => rd.meta.Keys == {DomainIdKey}
  }

  /** Role of a key that may only see the short URLs it created: no metadata. */
  function ForAuthoredShortUrls(): (rd: RoleDefinition)
    ensures rd.roleName == AuthoredShortUrls
    ensures |rd.meta| == 0
    ensures DomainIdOf(rd) == None
    ensures WellFormed(rd)
  {
    RoleDefinition(AuthoredShortUrls, map[])
  }

  /** Role of a key restricted to one domain: the metadata holds exactly that domain. */
  function ForDomain(domainId: string): (rd: RoleDefinition)
    ensures rd.roleName == DomainSpecific
    ensures rd.meta.Keys == {DomainIdKey} && rd.meta[DomainIdKey] == domainId
    ensures DomainIdOf(rd) == Some(domainId)
    ensures WellFormed(rd)
  {
    RoleDefinition(DomainSpecific, map[DomainIdKey := domainId])
  }

  /** Every well-formed definition is one of the two constructors' results, and the
      domain can be recovered from a domain-specific one: construction loses nothing. */
  lemma WellFormedIsConstructed(rd: RoleDefinition)
    requires WellFormed(rd)
    ensures rd.roleName == AuthoredShortUrls ==> rd == ForAuthoredShortUrls()
    ensures rd.roleName == DomainSpecific ==>
      DomainIdOf(rd).Some? && rd == ForDomain(DomainIdOf(rd).value)
  {
  }

  /** Distinct domains give distinct definitions, and no domain role equals the authored one. */
  lemma ForDomainInjective(a: string, b: string)
    ensures ForDomain(a) == ForDomain(b) <==> a == b
    ensures ForDomain(a) != ForAuthoredShortUrls()
  {
  }

  /** An API key as seen by the queries of this model: an identifier and its roles.
      How a key turns its roles into a query specification is not part of this model. */
  datatype ApiKey = ApiKey(key: string, roles: seq<RoleDefinition>)

  /** The opaque query restriction a key contributes (`ApiKey::spec()`). */
  datatype Spec = KeySpec(key: ApiKey)

  function SpecOf(k: ApiKey): Spec {
    KeySpec(k)
  }
}
