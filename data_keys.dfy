// What the data providers have in common: the cache key each one owns, the organisation
// check that guards every entry point, and the outcome of a network request.

module DataKeys {
  import opened Wrappers
  import QueryKey

  /** The six providers, each owning one cache key per organisation. */
  datatype Entity = Missions | Drones | Sites | Users | Settings | Analytics

  function Name(e: Entity): (r: string)
    ensures forall i :: 0 <= i < |r| ==> QueryKey.IsBase36Digit(r[i])
  {
    match e
    case Missions => "missions"
    case Drones => "drones"
    case Sites => "sites"
    case Users => "users"
    case Settings => "settings"
    case Analytics => "analytics"
  }

  /** `${entity}:${organizationId}` */
  function CacheKey(e: Entity, org: string): string {
    Name(e) + ":" + org
  }

  /** A cache key splits at its first colon into the provider's name and the organisation. */
  lemma CacheKeyParts(e: Entity, org: string)
    ensures var key := CacheKey(e, org);
            QueryKey.FirstColon(key) == |Name(e)| < |key| &&
            key[..|Name(e)|] == Name(e) && key[|Name(e)| + 1..] == org
  {
    QueryKey.FirstColonOfDigits(Name(e), org);
    var key := CacheKey(e, org);
    assert key[..|Name(e)|] == Name(e);
  }

  /** Two providers, or one provider in two organisations, never share a cache key. */
  lemma CacheKeyInjective(e1: Entity, org1: string, e2: Entity, org2: string)
    ensures CacheKey(e1, org1) == CacheKey(e2, org2) <==> e1 == e2 && org1 == org2
  {
    if CacheKey(e1, org1) == CacheKey(e2, org2) {
      CacheKeyParts(e1, org1);
      CacheKeyParts(e2, org2);
    }
  }

  /** `organizationId` taken from the first membership: an entry point does nothing when it is
      undefined or the empty string. */
  predicate OrgReady(org: Option<string>) {
    org.Some? && org.value != ""
  }

  /** A network request that settles with a value or throws. */
  datatype Fetch<T> = Fetched(value: T) | Failed(error: string)
}
