/** The group resource type: mapping a Zoom group, the paginated List, the
    static member/admin entitlements, and Grants, which drains the group's
    member and admin lists completely and ignores the cursor. */
module Groups {
  import opened Base
  import opened Models
  import opened Sdk
  import opened Client
  import opened Pagination
  import opened Paging
  import opened ResourceTypes
  import opened Users

  /** `groupResource`: a group resource named and keyed by the group's name
      and id, with exactly the profile keys group_name and group_id. */
  function GroupResource(g: Group, parent: Option<ResourceId>): (r: Resource)
    ensures r.id == ResourceId(GroupType.id, g.id)
    ensures r.displayName == g.name
    ensures r.profile.Keys == {"group_name", "group_id"}
    ensures r.profile["group_name"] == g.name && r.profile["group_id"] == g.id
    ensures r.traits == GroupTrait && r.parent == parent
  {
    Resource(ResourceId(GroupType.id, g.id), g.name, map["group_name" := g.name, "group_id" := g.id], GroupTrait, parent)
  }

  /** Two groups map to the same resource id exactly when their ids agree. */
  lemma GroupResourceKeyed(g: Group, h: Group, p: Option<ResourceId>, q: Option<ResourceId>)
    ensures GroupResource(g, p).id == GroupResource(h, q).id <==> g.id == h.id
  {
  }

  const GroupListFrame: ResourceId := ResourceId(GroupType.id, "")

  /** Group `List`: one page of groups, one resource per group in order; the
      cursor is empty exactly when the server reported no further page; any
      failure yields no resources and an empty cursor. */
  function GroupList(codec: CursorCodec, token: string, parent: Option<ResourceId>, up: Upstream<Envelope<Group>>)
    : (r: Listing<Resource>)
    ensures r.err.None? <==> Served(codec, token, GroupListFrame, up)
    ensures r.err.Some? ==> r.items == [] && r.cursor == "" && r.annos == []
    ensures r.err.None? ==>
              var groups := GetPage(up, RequestedPage(codec, token, GroupListFrame));
              && |r.items| == |groups.records|
              && (forall i :: 0 <= i < |r.items| ==> r.items[i] == GroupResource(groups.records[i], parent))
              && (NonEmptyCursors(codec) ==> (r.cursor == "" <==> groups.next == ""))
  {
    PagedList(codec, token, GroupListFrame, up, (g: Group) => GroupResource(g, parent))
  }

  /** The entitlement slugs every group offers, in order. */
  const GroupEntitlementSlugs: seq<string> := [MemberEntitlement, AdminEntitlement]

  function GroupEntitlement(res: Resource, slug: string): Entitlement
  {
    Entitlement(res.id, slug, Assignment, [UserType.id],
                res.displayName + " group " + slug, "Zoom " + res.displayName + " group")
  }

  /** Group `Entitlements`: exactly "member" then "admin", both assignments on
      the group and grantable only to users. */
  function GroupEntitlements(res: Resource): (r: Listing<Entitlement>)
    ensures |r.items| == 2 && r.items[0].slug == MemberEntitlement && r.items[1].slug == AdminEntitlement
    ensures forall i :: 0 <= i < |r.items| ==>
              && r.items[i].resource == res.id
              && r.items[i].grantableTo == [UserType.id]
              && r.items[i].purpose == Assignment
    ensures r.cursor == "" && r.annos == [] && r.err.None?
  {
    Listing(MapAll(GroupEntitlementSlugs, (slug: string) => GroupEntitlement(res, slug)), "", [], None)
  }

  /** A grant of `slug` on `res` to the user `u`, built from the user's resource. */
  function UserGrant(res: Resource, slug: string, u: User): (g: Grant)
    ensures g.target == res.id && g.entitlement == slug && g.principal == ResourceId(UserType.id, u.id)
  {
    Grant(res.id, slug, UserResource(u, Some(res.id)).id)
  }

  /** Two user grants on the same resource coincide exactly when they name
      the same entitlement and users with the same id. */
  lemma UserGrantKeyed(res: Resource, s: string, u: User, t: string, v: User)
    ensures UserGrant(res, s, u) == UserGrant(res, t, v) <==> s == t && u.id == v.id
  {
  }

  /** A "member" or "admin" grant on the group to a user is one the group's
      entitlements support. */
  lemma GroupSupportsUserGrant(res: Resource, slug: string, g: Grant)
    requires slug == MemberEntitlement || slug == AdminEntitlement
    requires g.target == res.id && g.entitlement == slug && g.principal.resourceType == UserType.id
    ensures Supported(GroupEntitlements(res).items, g)
  {
    var ents := GroupEntitlements(res).items;
    if slug == MemberEntitlement {
      assert ents[0].slug == g.entitlement;
    } else {
      assert ents[1].slug == g.entitlement;
    }
  }

  /** The grants of a group whose drains gave `ms` and `ads`: one "member"
      grant per member, then one "admin" grant per admin, each supported by
      the group's entitlements and keyed like the users they name. */
  function GroupGrantList(res: Resource, ms: seq<User>, ads: seq<User>): (g: seq<Grant>)
    ensures |g| == |ms| + |ads|
    ensures forall i :: 0 <= i < |ms| ==> g[i] == UserGrant(res, MemberEntitlement, ms[i])
    ensures forall k :: |ms| <= k < |g| ==> g[k] == UserGrant(res, AdminEntitlement, ads[k - |ms|])
    ensures forall i :: 0 <= i < |g| ==> Supported(GroupEntitlements(res).items, g[i])
  {
    var members := MapAll(ms, (u: User) => UserGrant(res, MemberEntitlement, u));
    var admins := MapAll(ads, (u: User) => UserGrant(res, AdminEntitlement, u));
    var g := members + admins;
    assert forall k :: |ms| <= k < |g| ==> g[k] == admins[k - |ms|];
    forall i | 0 <= i < |g|
      ensures Supported(GroupEntitlements(res).items, g[i])
    {
      GroupSupportsUserGrant(res, if i < |ms| then MemberEntitlement else AdminEntitlement, g[i]);
    }
    g
  }

  /** Group `Grants`: one "member" grant per drained member, then one "admin"
      grant per drained admin. The cursor is ignored and the answer never
      continues; if either drain fails there are no grants, only the error.
      The grants are those of `GroupGrantList`, so they are pairwise distinct
      iff neither drain repeats a user id. */
  function GroupGrants(res: Resource, token: string, members: Upstream<Envelope<User>>, ghost nm: nat,
                       admins: Upstream<Envelope<User>>, ghost na: nat): (r: Listing<Grant>)
    requires EndsWithin(members, "", nm)
    requires DrainFrom(members, "", nm).Ok? ==> EndsWithin(admins, "", na)
    ensures r.cursor == "" && r.annos == []
    ensures r.err.None? <==> DrainFrom(members, "", nm).Ok? && DrainFrom(admins, "", na).Ok?
    ensures r.err.Some? ==> r.items == []
    ensures DrainFrom(members, "", nm).Err? ==> r.err == Some(DrainFrom(members, "", nm).error)
    ensures DrainFrom(members, "", nm).Ok? && DrainFrom(admins, "", na).Err? ==>
              r.err == Some(DrainFrom(admins, "", na).error)
    ensures r.err.None? ==>
              var ms := DrainFrom(members, "", nm).value;
              var ads := DrainFrom(admins, "", na).value;
              && |r.items| == |ms| + |ads|
              && (forall i :: 0 <= i < |ms| ==> r.items[i] == UserGrant(res, MemberEntitlement, ms[i]))
              && (forall k :: |ms| <= k < |r.items| ==> r.items[k] == UserGrant(res, AdminEntitlement, ads[k - |ms|]))
              && r.items == GroupGrantList(res, ms, ads)
    ensures forall i :: 0 <= i < |r.items| ==> Supported(GroupEntitlements(res).items, r.items[i])
  {
    match DrainFrom(members, "", nm)
    case Err(e) => Failed(e)
    case Ok(ms) =>
      match DrainFrom(admins, "", na)
      case Err(e) => Failed(e)
      case Ok(ads) => Listing(GroupGrantList(res, ms, ads), "", [], None)
  }

  /** Group listing keys its resources as the upstream keys its groups: two
      listed resources share an id exactly when their groups do. */
  lemma GroupListKeys(codec: CursorCodec, token: string, parent: Option<ResourceId>, up: Upstream<Envelope<Group>>)
    ensures var r := GroupList(codec, token, parent, up);
            var groups := GetPage(up, RequestedPage(codec, token, GroupListFrame)).records;
            r.err.None? ==>
              forall i, j :: 0 <= i < |r.items| && 0 <= j < |r.items| ==>
                (r.items[i].id == r.items[j].id <==> groups[i].id == groups[j].id)
  {
  }

  /** Member grants for `ms` followed by admin grants for `ads`: a member
      grant and an admin grant never coincide, and within each part two
      grants coincide exactly when the users' ids do. */
  predicate KeyedLikeUsers(items: seq<Grant>, ms: seq<User>, ads: seq<User>)
    requires |items| == |ms| + |ads|
  {
    && (forall i, k :: 0 <= i < |ms| <= k < |items| ==> items[i] != items[k])
    && (forall i, j :: 0 <= i < |ms| && 0 <= j < |ms| ==> (items[i] == items[j] <==> ms[i].id == ms[j].id))
    && (forall k, l :: |ms| <= k < |items| && |ms| <= l < |items| ==>
          (items[k] == items[l] <==> ads[k - |ms|].id == ads[l - |ms|].id))
  }

  lemma {:induction false} MemberAdminGrantsKeyed(res: Resource, ms: seq<User>, ads: seq<User>, items: seq<Grant>)
    requires |items| == |ms| + |ads|
    requires forall i :: 0 <= i < |ms| ==> items[i] == UserGrant(res, MemberEntitlement, ms[i])
    requires forall k :: |ms| <= k < |items| ==> items[k] == UserGrant(res, AdminEntitlement, ads[k - |ms|])
    ensures KeyedLikeUsers(items, ms, ads)
  {
    forall i, k | 0 <= i < |ms| <= k < |items|
      ensures items[i] != items[k]
    {
      assert items[i].entitlement == MemberEntitlement != AdminEntitlement == items[k].entitlement;
    }
    forall i, j | 0 <= i < |ms| && 0 <= j < |ms|
      ensures items[i] == items[j] <==> ms[i].id == ms[j].id
    {
      UserGrantKeyed(res, MemberEntitlement, ms[i], MemberEntitlement, ms[j]);
    }
    forall k, l | |ms| <= k < |items| && |ms| <= l < |items|
      ensures items[k] == items[l] <==> ads[k - |ms|].id == ads[l - |ms|].id
    {
      UserGrantKeyed(res, AdminEntitlement, ads[k - |ms|], AdminEntitlement, ads[l - |ms|]);
    }
  }

  /** The grants of a group are keyed like the users the drains gave: the
      list is duplicate-free iff neither drain repeats a user id. */
  lemma GroupGrantListKeyed(res: Resource, ms: seq<User>, ads: seq<User>)
    ensures KeyedLikeUsers(GroupGrantList(res, ms, ads), ms, ads)
  {
    MemberAdminGrantsKeyed(res, ms, ads, GroupGrantList(res, ms, ads));
  }
}
