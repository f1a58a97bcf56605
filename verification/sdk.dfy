/** The governance platform's records as the connector builds them: resources,
    entitlements, grants, rate-limit annotations and the four-part answer of a
    List, Entitlements or Grants call. The platform's own constructors and
    their protobuf encoding are not modelled; these are plain records. */
module Sdk {
  import opened Base

  /** A resource's identity: its resource type id and its external id. */
  datatype ResourceId = ResourceId(resourceType: string, resource: string)

  /** The user trait's account status. */
  datatype UserStatus = StatusUnspecified | StatusEnabled | StatusDisabled

  /** The trait a resource carries; a user trait also holds its status and
      its login e-mail (always flagged primary by this connector). */
  datatype Trait =
    | UserTrait(status: UserStatus, email: string, emailPrimary: bool)
    | GroupTrait
    | RoleTrait

  datatype Resource = Resource(
    id: ResourceId,
    displayName: string,
    profile: map<string, string>,
    traits: Trait,
    parent: Option<ResourceId>)

  /** Assignment entitlements are memberships; permission entitlements are
      capabilities (used for roles). */
  datatype Purpose = Assignment | Permission

  /** An entitlement `slug` on `resource`, grantable to principals whose
      resource type id is in `grantableTo`. */
  datatype Entitlement = Entitlement(
    resource: ResourceId,
    slug: string,
    purpose: Purpose,
    grantableTo: seq<string>,
    displayName: string,
    description: string)

  /** `principal` holds entitlement `entitlement` on `target`. */
  datatype Grant = Grant(target: ResourceId, entitlement: string, principal: ResourceId)

  datatype Timestamp = Timestamp(seconds: int)

  datatype RateLimitDescription = RateLimitDescription(limit: int, remaining: int, resetAt: Option<Timestamp>)

  /** The annotations attached to a response: here only rate-limit descriptions. */
  type Annotations = seq<RateLimitDescription>

  /** What a List, Entitlements or Grants call returns: the items, the next
      cursor ("" when there are no more pages), annotations and an error. */
  datatype Listing<T> = Listing(items: seq<T>, cursor: string, annos: Annotations, err: Option<Error>)

  /** The answer every failing call gives: nothing but the error. */
  function Failed<T>(e: Error): Listing<T>
  {
    Listing([], "", [], Some(e))
  }

  /** The grant `g` names an entitlement that `ents` offers on `g`'s target
      and its principal's type is one that entitlement may be granted to. */
  predicate Supported(ents: seq<Entitlement>, g: Grant)
  {
    exists i :: 0 <= i < |ents| && ents[i].resource == g.target && ents[i].slug == g.entitlement
                && g.principal.resourceType in ents[i].grantableTo
  }
}
