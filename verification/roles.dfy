/** The role resource type: mapping a Zoom role, the unpaginated List, the
    single "member" permission, and the paginated Grants listing role members
    as users. */
module Roles {
  import opened Base
  import opened Http
  import opened Models
  import opened Sdk
  import opened Client
  import opened Pagination
  import opened Paging
  import opened RateLimit
  import opened ResourceTypes
  import opened Users
  import opened Groups

  /** `roleResource`: keyed by the role id and named by its name, with exactly
      the profile keys role_name and role_id. */
  function RoleResource(role: Role, parent: Option<ResourceId>): (r: Resource)
    ensures r.id == ResourceId(RoleType.id, role.id)
    ensures r.displayName == role.name
    ensures r.profile.Keys == {"role_name", "role_id"}
    ensures r.profile["role_name"] == role.name && r.profile["role_id"] == role.id
    ensures r.traits == RoleTrait && r.parent == parent
  {
    Resource(ResourceId(RoleType.id, role.id), role.name, map["role_name" := role.name, "role_id" := role.id],
             RoleTrait, parent)
  }

  /** Two roles map to the same resource id exactly when their ids agree. */
  lemma RoleResourceKeyed(a: Role, b: Role, p: Option<ResourceId>, q: Option<ResourceId>)
    ensures RoleResource(a, p).id == RoleResource(b, q).id <==> a.id == b.id
  {
  }

  /** Role `List`: one unpaginated fetch of every role, one resource per role
      in order. The cursor is never read and the next cursor is always empty;
      a failed fetch yields no resources. */
  function RoleList(token: string, parent: Option<ResourceId>, up: Upstream<seq<Role>>): (r: Listing<Resource>)
    ensures r.cursor == ""
    ensures r.err.None? <==> GetRoles(up).Ok?
    ensures r.err.Some? ==> r.items == [] && r.annos == [] && r.err.value == GetRoles(up).error
    ensures r.err.None? ==>
              var (resp, roles) := GetRoles(up).value;
              && |r.items| == |roles|
              && (forall i :: 0 <= i < |roles| ==> r.items[i] == RoleResource(roles[i], parent))
              && r.annos == ParseResp(Some(resp)).0
  {
    match GetRoles(up)
    case Err(e) => Failed(e)
    case Ok((resp, roles)) =>
      var (annos, _) := ParseResp(Some(resp));
      Listing(MapAll(roles, (role: Role) => RoleResource(role, parent)), "", annos, None)
  }

  /** Role listing keys its resources as the upstream keys its roles. */
  lemma RoleListKeys(parent: Option<ResourceId>, up: Upstream<seq<Role>>)
    ensures var r := RoleList("", parent, up);
            r.err.None? ==>
              var roles := GetRoles(up).value.1;
              forall i, j :: 0 <= i < |r.items| && 0 <= j < |r.items| ==>
                (r.items[i].id == r.items[j].id <==> roles[i].id == roles[j].id)
  {
  }

  /** Role `Entitlements`: a single "member" permission, grantable to users. */
  function RoleEntitlements(res: Resource): (r: Listing<Entitlement>)
    ensures |r.items| == 1
    ensures r.items[0].resource == res.id && r.items[0].slug == MemberEntitlement
    ensures r.items[0].purpose == Permission && r.items[0].grantableTo == [UserType.id]
    ensures r.cursor == "" && r.annos == [] && r.err.None?
  {
    var en := Entitlement(res.id, MemberEntitlement, Permission, [UserType.id],
                          res.displayName + " role " + MemberEntitlement, "Role " + res.displayName + " in zoom");
    Listing([en], "", [], None)
  }

  /** A "member" grant on the role to a user is one the role's entitlement
      supports. */
  lemma RoleSupportsMemberGrant(res: Resource, g: Grant)
    requires g.target == res.id && g.entitlement == MemberEntitlement && g.principal.resourceType == UserType.id
    ensures Supported(RoleEntitlements(res).items, g)
  {
    assert RoleEntitlements(res).items[0].slug == g.entitlement;
  }

  /** As written, role grant listing scopes its cursor frame to groups. */
  const RoleGrantsFrame: ResourceId := ResourceId(GroupType.id, "")

  /** Role `Grants`: one page of role members, one user-principal "member"
      grant per member, in order; the cursor is empty exactly when the server
      reported no further page; any failure yields no grants. */
  function RoleGrants(codec: CursorCodec, token: string, res: Resource, up: Upstream<Envelope<User>>)
    : (r: Listing<Grant>)
    ensures r.err.None? <==> Served(codec, token, RoleGrantsFrame, up)
    ensures r.err.Some? ==> r.items == [] && r.cursor == "" && r.annos == []
    ensures r.err.None? ==>
              var members := GetPage(up, RequestedPage(codec, token, RoleGrantsFrame));
              && |r.items| == |members.records|
              && (forall i :: 0 <= i < |r.items| ==> r.items[i] == UserGrant(res, MemberEntitlement, members.records[i]))
              && (NonEmptyCursors(codec) ==> (r.cursor == "" <==> members.next == ""))
    ensures forall i :: 0 <= i < |r.items| ==> Supported(RoleEntitlements(res).items, r.items[i])
  {
    var r := PagedList(codec, token, RoleGrantsFrame, up, (u: User) => UserGrant(res, MemberEntitlement, u));
    forall i | 0 <= i < |r.items|
      ensures Supported(RoleEntitlements(res).items, r.items[i])
    {
      RoleSupportsMemberGrant(res, r.items[i]);
    }
    r
  }
}
